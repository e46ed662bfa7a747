/**
 What the table spells in every run, overlapping flushes included: for each request the initial text
 and the texts of some of the flushes that succeeded, in the order they ended. A flush that another
 one overwrote is missing from it.
 */
module PersistenceSpelling {
  import opened Types
  import opened Subsequences
  import opened MessageTable
  import opened FlushBatch
  import opened PersistenceMachine
  import opened PersistenceInvariant

  ghost predicate AllOk(ended: seq<Ended>) {
    forall e :: e in ended ==> e.ok
  }

  /** `text` is what `base` holds for `r`, then what `picked`, flushes that succeeded in this order, carried of it. */
  ghost predicate SpelledBy(base: seq<Message>, ended: seq<Ended>, r: Id, text: string, picked: seq<Ended>) {
    && Subsequence(picked, ended) && AllOk(picked)
    && text == Stored(base, r) + Text(Of(r, Toks(All(picked))))
  }

  ghost predicate Spelled(base: seq<Message>, ended: seq<Ended>, r: Id, text: string) {
    exists picked :: SpelledBy(base, ended, r, text, picked)
  }

  /** The table, and what every flush has read of it, is spelled by successful flushes. */
  ghost predicate Spelling(s: State) {
    && (forall r :: Spelled(s.k.base, s.h.ended, r, Stored(s.d.rows, r)))
    && (forall f :: f in s.w.flights && s.w.flights[f].phase == Merged ==> ReadSpelled(s, f))
  }

  ghost predicate ReadSpelled(s: State, f: nat)
    requires f in s.w.flights
  {
    forall r :: r in s.w.flights[f].snap ==> Spelled(s.k.base, s.h.ended, r, Entry(s.w.flights[f].existing, r))
  }

  lemma SpelledLater(base: seq<Message>, ended: seq<Ended>, more: seq<Ended>, r: Id, text: string)
    requires Spelled(base, ended, r, text)
    ensures Spelled(base, ended + more, r, text)
  {
    var picked :| SpelledBy(base, ended, r, text, picked);
    SubsequenceOfLonger(picked, ended, more);
    assert SpelledBy(base, ended + more, r, text, picked);
  }

  /** A flush that succeeds adds its own text to what it had read. */
  lemma SpelledNext(base: seq<Message>, ended: seq<Ended>, r: Id, text: string, src: seq<Stamp>)
    requires Spelled(base, ended, r, text)
    ensures Spelled(base, ended + [Ended(src, true)], r, text + Text(Of(r, Toks(src))))
  {
    var picked :| SpelledBy(base, ended, r, text, picked);
    var e := Ended(src, true);
    SubsequenceSnoc(picked, ended, e);
    EndedSnoc(picked, e);
    ToksConcat(All(picked), src);
    SpelledConcat(r, Toks(All(picked)), Toks(src));
    Associate(Stored(base, r), Text(Of(r, Toks(All(picked)))), Text(Of(r, Toks(src))));
    assert SpelledBy(base, ended + [e], r, text + Text(Of(r, Toks(src))), picked + [e]);
  }

  lemma SpellingInitially(s: State)
    requires Init(s)
    ensures Spelling(s)
  {
    forall r ensures Spelled(s.k.base, s.h.ended, r, Stored(s.d.rows, r)) {
      assert Stored(s.k.base, r) + "" == Stored(s.k.base, r);
      assert SpelledBy(s.k.base, s.h.ended, r, Stored(s.d.rows, r), []);
    }
  }

  lemma SpellingStill(s: State, s': State)
    requires Spelling(s) && s'.d.rows == s.d.rows && s'.k == s.k && s'.h.ended == s.h.ended
    requires s'.w.flights == s.w.flights
    ensures Spelling(s')
  {
    forall f | f in s.w.flights ensures ReadSpelled(s', f) <==> ReadSpelled(s, f) {}
  }

  /** One flight starts, or moves on without having read; no flush ends. */
  lemma SpellingOne(s: State, s': State, f: nat)
    requires Spelling(s) && s'.d.rows == s.d.rows && s'.k == s.k && s'.h.ended == s.h.ended
    requires f in s'.w.flights && s'.w.flights == s.w.flights[f := s'.w.flights[f]] && s'.w.flights[f].phase != Merged
    ensures Spelling(s')
  {
    forall g | g in s'.w.flights && g != f ensures ReadSpelled(s', g) <==> ReadSpelled(s, g) {}
  }

  lemma SpellingRelease(s: State, f: nat)
    requires Spelling(s) && Enabled(s, Release(f))
    ensures Spelling(Apply(s, Release(f)))
  {
    var s' := Apply(s, Release(f));
    forall g | g in s'.w.flights ensures ReadSpelled(s', g) <==> ReadSpelled(s, g) {}
  }

  lemma SpellingRead(s: State, f: nat)
    requires Spelling(s) && Enabled(s, Read(f, true))
    ensures Spelling(Apply(s, Read(f, true)))
  {
    var s' := Apply(s, Read(f, true));
    forall g | g in s'.w.flights && s'.w.flights[g].phase == Merged ensures ReadSpelled(s', g) {
      if g == f {
        forall r | r in s'.w.flights[f].snap ensures Entry(s'.w.flights[f].existing, r) == Stored(s.d.rows, r) {}
      } else {
        assert ReadSpelled(s, g);
      }
    }
  }

  /** The other flights keep what they read when flushes end. */
  lemma OthersSpelled(s: State, s': State, f: nat, more: seq<Ended>)
    requires Spelling(s) && s'.k == s.k && s'.h.ended == s.h.ended + more
    requires f in s'.w.flights && s'.w.flights == s.w.flights[f := s'.w.flights[f]] && s'.w.flights[f].phase != Merged
    ensures forall g :: g in s'.w.flights && s'.w.flights[g].phase == Merged ==> ReadSpelled(s', g)
  {
    forall g | g in s'.w.flights && s'.w.flights[g].phase == Merged ensures ReadSpelled(s', g) {
      assert ReadSpelled(s, g);
      forall r | r in s'.w.flights[g].snap
        ensures Spelled(s'.k.base, s'.h.ended, r, Entry(s'.w.flights[g].existing, r))
      {
        SpelledLater(s.k.base, s.h.ended, more, r, Entry(s.w.flights[g].existing, r));
      }
    }
  }

  lemma SpellingFailure(s: State, f: nat)
    requires Spelling(s) && f in s.w.flights
    ensures Spelling(End(s, f, false, s.d.rows))
  {
    var s' := End(s, f, false, s.d.rows);
    var more := [Ended(s.w.flights[f].src, false)];
    OthersSpelled(s, s', f, more);
    forall r ensures Spelled(s'.k.base, s'.h.ended, r, Stored(s'.d.rows, r)) {
      SpelledLater(s.k.base, s.h.ended, more, r, Stored(s.d.rows, r));
    }
  }

  lemma SpelledUpsert(s: State, f: nat, order: seq<Id>, rows: seq<Message>, r: Id)
    requires f in s.w.flights && Loads(s.w.flights[f]) && s.w.flights[f].phase == Merged
    requires Spelled(s.k.base, s.h.ended, r, Stored(s.d.rows, r)) && ReadSpelled(s, f)
    requires Enumerates(order, s.w.flights[f].snap.Keys)
    requires rows == UpsertRows(s.d.rows, Batch(order, s.w.flights[f].snap, s.w.flights[f].existing))
    ensures Spelled(s.k.base, s.h.ended + [Ended(s.w.flights[f].src, true)], r, Stored(rows, r))
  {
    var fl := s.w.flights[f];
    FlushWrites(s.d.rows, order, fl.snap, fl.existing, r, Toks(fl.src));
    if r in fl.snap {
      SpelledNext(s.k.base, s.h.ended, r, Entry(fl.existing, r), fl.src);
    } else {
      SpelledLater(s.k.base, s.h.ended, [Ended(fl.src, true)], r, Stored(s.d.rows, r));
    }
  }

  lemma SpellingUpsert(s: State, f: nat, order: seq<Id>)
    requires Buffered(s) && Spelling(s) && Enabled(s, Upsert(f, order, true))
    ensures Spelling(Apply(s, Upsert(f, order, true)))
  {
    var s' := Apply(s, Upsert(f, order, true));
    OthersSpelled(s, s', f, [Ended(s.w.flights[f].src, true)]);
    assert Loads(s.w.flights[f]) && ReadSpelled(s, f);
    forall r ensures Spelled(s'.k.base, s'.h.ended, r, Stored(s'.d.rows, r)) {
      SpelledUpsert(s, f, order, s'.d.rows, r);
    }
  }

  lemma SpellingCrash(s: State)
    requires Spelling(s)
    ensures Spelling(Apply(s, CrashRestart))
  {
    var s' := Apply(s, CrashRestart);
    forall r ensures Spelled(s'.k.base, s'.h.ended, r, Stored(s'.d.rows, r)) {
      SpelledLater(s.k.base, s.h.ended, Discarded(s), r, Stored(s.d.rows, r));
    }
  }

  lemma SpellingKept(s: State, step: Step)
    requires Buffered(s) && Spelling(s) && Enabled(s, step)
    ensures Spelling(Apply(s, step))
  {
    var s' := Apply(s, step);
    match step
    case Upsert(f, order, ok) => if ok { SpellingUpsert(s, f, order); } else { SpellingFailure(s, f); }
    case Read(f, ok) => if ok { SpellingRead(s, f); } else { SpellingFailure(s, f); }
    case CrashRestart => SpellingCrash(s);
    case Trigger(f) => if s.w.flushing { SpellingStill(s, s'); } else { SpellingOne(s, s', f); }
    case Tick(f) => if !s.w.flushing { SpellingOne(s, s', f); }
    case Stop(f) => SpellingOne(s, s', f);
    case Snapshot(f) => SpellingOne(s, s', f);
    case Release(f) => SpellingRelease(s, f);
    case _ => SpellingStill(s, s');
  }

  lemma {:induction false} SpellingAlongRun(s: State, run: seq<Step>)
    requires Inv(s) && Spelling(s) && Legal(s, run)
    ensures Spelling(After(s, run))
    decreases |run|
  {
    if run != [] {
      SpellingKept(s, run[0]);
      InvKept(s, run[0]);
      SpellingAlongRun(Apply(s, run[0]), run[1..]);
    }
  }

  // ---------------------------------------------------------------- picked flushes carried kept tokens

  lemma {:induction false} PickedAreKept(picked: seq<Ended>, ended: seq<Ended>)
    requires Subsequence(picked, ended) && AllOk(picked)
    ensures multiset(All(picked)) <= multiset(Kept(ended))
    decreases |ended|
  {
    if picked != [] {
      var init, e := ended[..|ended| - 1], ended[|ended| - 1];
      if Subsequence(picked, init) {
        PickedAreKept(picked, init);
      } else {
        assert picked[|picked| - 1] == e && e in picked;
        PickedAreKept(picked[..|picked| - 1], init);
      }
    }
  }

  /** The flushes that succeeded. */
  function Successes(ended: seq<Ended>): seq<Ended> {
    if ended == [] then []
    else
      var e := ended[|ended| - 1];
      Successes(ended[..|ended| - 1]) + if e.ok then [e] else []
  }

  lemma {:induction false} SuccessesCarryKept(ended: seq<Ended>)
    ensures Subsequence(Successes(ended), ended) && AllOk(Successes(ended)) && All(Successes(ended)) == Kept(ended)
  {
    if ended != [] {
      var init, e := ended[..|ended| - 1], ended[|ended| - 1];
      SuccessesCarryKept(init);
      assert ended == init + [e];
      if e.ok {
        SubsequenceSnoc(Successes(init), init, e);
        EndedSnoc(Successes(init), e);
      } else {
        SubsequenceOfLonger(Successes(init), init, [e]);
        assert Successes(init) + [] == Successes(init) && Kept(init) + [] == Kept(init);
      }
    }
  }
}
