/**
 Who owns a session: an atomic claim of a key that expires a day after it was set. Owners of one
 session follow each other at least a whole day apart.
 */
module SessionOwner {
  import opened Types
  import opened Redis
  import opened CallbackStore

  const OWNER_TTL: nat := 24 * 60 * 60 * 1000

  function OwnerKey(sessionID: Id): string {
    "session_owner:" + sessionID
  }

  /** The script: take a free key, confirm one's own, leave another's alone. */
  function Claim(db: Db, sessionID: Id, userID: Id, now: nat): (Db, bool) {
    var existing := Get(db, OwnerKey(sessionID), now);
    if existing == None then (SetEx(db, OwnerKey(sessionID), userID, OWNER_TTL, now), true)
    else (db, existing == Some(userID))
  }

  lemma OwnerKeysDiffer(a: Id, b: Id)
    requires a != b
    ensures OwnerKey(a) != OwnerKey(b)
  {
    PrefixedKeysDiffer("session_owner:", a, b);
  }

  /** Ownership and callbacks share a Redis without touching each other. */
  lemma OwnersAndCallbacksDisjoint(sessionID: Id, requestID: Id)
    ensures OwnerKey(sessionID) != CallbackKey(requestID)
  {
    assert OwnerKey(sessionID)[1] == 'e' && CallbackKey(requestID)[1] == 't';
  }

  // ---------------------------------------------------------------- claims over time

  /** A successful claim: who, when, and when the key it rests on was set. */
  datatype Grant = Grant(sessionID: Id, userID: Id, at: nat, since: nat)

  datatype State = State(db: Db, now: nat, grants: seq<Grant>)

  datatype Step =
    | Elapse(duration: nat)
    | TryClaim(sessionID: Id, userID: Id)
    | SetCallback(requestID: Id, entry: Entry)   // the other writer of this Redis

  ghost predicate Init(s: State) {
    s.grants == [] && forall sessionID :: OwnerKey(sessionID) !in s.db
  }

  function Apply(s: State, step: Step): State {
    match step
    case Elapse(duration) => s.(now := s.now + duration)
    case TryClaim(sessionID, userID) =>
      var (db, owned) := Claim(s.db, sessionID, userID, s.now);
      var since := if Get(s.db, OwnerKey(sessionID), s.now) == None then s.now else SetAt(s.db[OwnerKey(sessionID)]);
      if owned then s.(db := db, grants := s.grants + [Grant(sessionID, userID, s.now, since)]) else s
    case SetCallback(requestID, entry) => s.(db := s.db[CallbackKey(requestID) := entry])
  }

  /** When a claim's key was set, from its deadline. */
  function SetAt(e: Entry): nat {
    if e.deadline >= OWNER_TTL then e.deadline - OWNER_TTL else 0
  }

  function After(s: State, run: seq<Step>): State
    decreases |run|
  {
    if run == [] then s else After(Apply(s, run[0]), run[1..])
  }

  /** A grant's key is still there, or its day has passed and any new key was set after that. */
  ghost predicate Respected(s: State, g: Grant) {
    var key := OwnerKey(g.sessionID);
    && g.since <= g.at <= s.now && g.at < g.since + OWNER_TTL
    && key in s.db
    && (s.db[key] == Entry(g.userID, g.since + OWNER_TTL) ||
        (g.since + OWNER_TTL <= s.now && g.since + 2 * OWNER_TTL <= s.db[key].deadline))
  }

  ghost predicate Inv(s: State) {
    && (forall g :: g in s.grants ==> Respected(s, g))
    && (forall id :: OwnerKey(id) in s.db ==> OWNER_TTL <= s.db[OwnerKey(id)].deadline <= s.now + OWNER_TTL)
    && (forall i, j :: 0 <= i < j < |s.grants| && s.grants[i].sessionID == s.grants[j].sessionID ==>
          Apart(s.grants[i], s.grants[j]))
  }

  /** The later grant rests on the same key of the same user, or on one set a whole day later or more. */
  ghost predicate Apart(earlier: Grant, later: Grant) {
    (later.userID == earlier.userID && later.since == earlier.since) || earlier.since + OWNER_TTL <= later.since
  }

  lemma ClaimRespects(s: State, sessionID: Id, userID: Id, g: Grant)
    requires Inv(s) && g in s.grants
    ensures Respected(Apply(s, TryClaim(sessionID, userID)), g)
  {
    assert Respected(s, g);
    if g.sessionID != sessionID {
      OwnerKeysDiffer(g.sessionID, sessionID);
    }
  }

  lemma ClaimIsApart(s: State, sessionID: Id, userID: Id)
    requires Inv(s) && Claim(s.db, sessionID, userID, s.now).1
    ensures var s' := Apply(s, TryClaim(sessionID, userID));
            var later := s'.grants[|s.grants|];
            Respected(s', later) && forall g :: g in s.grants && g.sessionID == sessionID ==> Apart(g, later)
  {
    var later := Apply(s, TryClaim(sessionID, userID)).grants[|s.grants|];
    forall g | g in s.grants && g.sessionID == sessionID ensures Apart(g, later) {
      assert Respected(s, g);
    }
  }

  lemma CallbackKeeps(s: State, requestID: Id, entry: Entry)
    requires Inv(s)
    ensures Inv(Apply(s, Step.SetCallback(requestID, entry)))
  {
    var s' := Apply(s, Step.SetCallback(requestID, entry));
    forall id ensures OwnerKey(id) in s'.db <==> OwnerKey(id) in s.db
              ensures OwnerKey(id) in s.db ==> s'.db[OwnerKey(id)] == s.db[OwnerKey(id)] {
      OwnersAndCallbacksDisjoint(id, requestID);
    }
    forall g | g in s.grants ensures Respected(s', g) { assert Respected(s, g); }
  }

  lemma ClaimKeepsDeadlines(s: State, sessionID: Id, userID: Id, id: Id)
    requires Inv(s)
    ensures var db := Apply(s, TryClaim(sessionID, userID)).db;
            OwnerKey(id) in db ==> OWNER_TTL <= db[OwnerKey(id)].deadline <= s.now + OWNER_TTL
  {
    if id != sessionID { OwnerKeysDiffer(id, sessionID); }
  }

  lemma InvKept(s: State, step: Step)
    requires Inv(s)
    ensures Inv(Apply(s, step))
  {
    match step
    case SetCallback(requestID, entry) => CallbackKeeps(s, requestID, entry);
    case Elapse(duration) =>
      forall g | g in s.grants ensures Respected(Apply(s, step), g) { assert Respected(s, g); }
    case TryClaim(sessionID, userID) =>
      forall g | g in s.grants ensures Respected(Apply(s, step), g) { ClaimRespects(s, sessionID, userID, g); }
      forall id | OwnerKey(id) in Apply(s, step).db
        ensures OWNER_TTL <= Apply(s, step).db[OwnerKey(id)].deadline <= s.now + OWNER_TTL
      {
        ClaimKeepsDeadlines(s, sessionID, userID, id);
      }
      if Claim(s.db, sessionID, userID, s.now).1 {
        ClaimIsApart(s, sessionID, userID);
      }
  }

  lemma {:induction false} InvAlongRun(s: State, run: seq<Step>)
    requires Inv(s)
    ensures Inv(After(s, run))
    decreases |run|
  {
    if run != [] {
      InvKept(s, run[0]);
      InvAlongRun(Apply(s, run[0]), run[1..]);
    }
  }

  /**
   Over any timed run: if two claims of one session succeed, the later rests on the very key the
   earlier one rests on, same owner and same deadline, or on a key set at least a day after it.
   Different users are therefore always a whole day apart.
   */
  lemma OwnersAreApart(s: State, run: seq<Step>, t: State, i: nat, j: nat)
    requires Init(s) && t == After(s, run)
    requires i < j < |t.grants| && t.grants[i].sessionID == t.grants[j].sessionID
    ensures Apart(t.grants[i], t.grants[j])
    ensures t.grants[i].userID != t.grants[j].userID ==>
        t.grants[i].since + OWNER_TTL <= t.grants[j].since <= t.grants[j].at
    ensures t.grants[j].at < t.grants[i].since + OWNER_TTL ==>
              t.grants[j].userID == t.grants[i].userID && t.grants[j].since == t.grants[i].since
  {
    InvAlongRun(s, run);
    assert Respected(t, t.grants[j]);
  }

  /** A claim within the day succeeds exactly for the owner, and changes nothing. */
  lemma ReclaimsChangeNothing(s: State, run: seq<Step>, t: State, g: Grant, userID: Id)
    requires Init(s) && t == After(s, run) && g in t.grants && t.now < g.since + OWNER_TTL
    ensures Claim(t.db, g.sessionID, userID, t.now) == (t.db, userID == g.userID)
  {
    InvAlongRun(s, run);
    assert Respected(t, g);
  }

  /** The claim that set the key: it found the key free. */
  ghost predicate Founding(h: Grant, sessionID: Id, userID: Id, since: nat) {
    h.sessionID == sessionID && h.userID == userID && h.at == h.since == since
  }

  ghost predicate Founded(grants: seq<Grant>, sessionID: Id, userID: Id, since: nat) {
    exists h :: h in grants && Founding(h, sessionID, userID, since)
  }

  /** Every key, and every grant, goes back to a claim that found the key free. */
  ghost predicate Grounded(s: State) {
    && (forall id :: OwnerKey(id) in s.db ==>
        Founded(s.grants, id, s.db[OwnerKey(id)].value, SetAt(s.db[OwnerKey(id)])))
    && (forall g :: g in s.grants ==> Founded(s.grants, g.sessionID, g.userID, g.since))
  }

  lemma FoundedStays(grants: seq<Grant>, g: Grant, sessionID: Id, userID: Id, since: nat)
    requires Founded(grants, sessionID, userID, since)
    ensures Founded(grants + [g], sessionID, userID, since)
  {
    var h :| h in grants && Founding(h, sessionID, userID, since);
    assert h in grants + [g];
  }

  lemma GroundedClaim(s: State, sessionID: Id, userID: Id)
    requires Grounded(s) && Claim(s.db, sessionID, userID, s.now).1
    ensures Grounded(Apply(s, TryClaim(sessionID, userID)))
  {
    var s' := Apply(s, TryClaim(sessionID, userID));
    var g := s'.grants[|s.grants|];
    if Get(s.db, OwnerKey(sessionID), s.now) == None {
      assert g in s'.grants && Founding(g, sessionID, userID, s.now);
    } else {
      FoundedStays(s.grants, g, sessionID, userID, g.since);
    }
    forall x | x in s.grants ensures Founded(s'.grants, x.sessionID, x.userID, x.since) {
      FoundedStays(s.grants, g, x.sessionID, x.userID, x.since);
    }
    forall id | OwnerKey(id) in s'.db ensures Founded(s'.grants, id, s'.db[OwnerKey(id)].value,
        SetAt(s'.db[OwnerKey(id)])) {
      if id != sessionID {
        OwnerKeysDiffer(id, sessionID);
        FoundedStays(s.grants, g, id, s.db[OwnerKey(id)].value, SetAt(s.db[OwnerKey(id)]));
      }
    }
  }

  lemma GroundedKept(s: State, step: Step)
    requires Grounded(s)
    ensures Grounded(Apply(s, step))
  {
    match step
    case Elapse(_) =>
    case TryClaim(sessionID, userID) =>
      if Claim(s.db, sessionID, userID, s.now).1 { GroundedClaim(s, sessionID, userID); }
    case SetCallback(requestID, entry) =>
      forall id ensures OwnerKey(id) != CallbackKey(requestID) { OwnersAndCallbacksDisjoint(id, requestID); }
  }

  lemma {:induction false} GroundedAlongRun(s: State, run: seq<Step>)
    requires Grounded(s)
    ensures Grounded(After(s, run))
    decreases |run|
  {
    if run != [] {
      GroundedKept(s, run[0]);
      GroundedAlongRun(Apply(s, run[0]), run[1..]);
    }
  }

  /** The time a grant's key was set is the time at which its own user claimed the session while it was free. */
  lemma OwnershipStartsWithAClaim(s: State, run: seq<Step>, t: State, g: Grant)
    requires Init(s) && t == After(s, run) && g in t.grants
    ensures Founded(t.grants, g.sessionID, g.userID, g.since)
  {
    GroundedAlongRun(s, run);
  }

  /** Nobody else's grant of the session still lasts. */
  ghost predicate Free(s: State, sessionID: Id, userID: Id) {
    forall g :: g in s.grants && g.sessionID == sessionID && g.userID != userID ==> g.since + OWNER_TTL <= s.now
  }

  /**
   After any timed run a claim succeeds if and only if no other user's grant of the session is less than a day
   old; a claim of a session nobody ever claimed succeeds.
   */
  lemma ClaimGrantedIffFree(s: State, run: seq<Step>, t: State, sessionID: Id, userID: Id)
    requires Init(s) && t == After(s, run)
    ensures var u := Apply(t, TryClaim(sessionID, userID));
            if Free(t, sessionID, userID) then
              |u.grants| == |t.grants| + 1 && u.grants[..|t.grants|] == t.grants &&
              u.grants[|t.grants|].sessionID == sessionID && u.grants[|t.grants|].userID == userID &&
              u.grants[|t.grants|].at == t.now
            else u == t
  {
    InvAlongRun(s, run);
    GroundedAlongRun(s, run);
    var key := OwnerKey(sessionID);
    if Free(t, sessionID, userID) && Get(t.db, key, t.now) != None {
      var h :| h in t.grants && Founding(h, sessionID, t.db[key].value, SetAt(t.db[key]));
      assert h.since + OWNER_TTL == t.db[key].deadline;
    } else if !Free(t, sessionID, userID) {
      var g :| g in t.grants && g.sessionID == sessionID && g.userID != userID && t.now < g.since + OWNER_TTL;
      ReclaimsChangeNothing(s, run, t, g, userID);
    }
  }

  lemma {:induction false} AfterElapse(s: State, run: seq<Step>, duration: nat)
    ensures After(s, run + [Elapse(duration)]) == Apply(After(s, run), Elapse(duration))
    decreases |run|
  {
    var longer := run + [Elapse(duration)];
    if run == [] {
      assert longer[1..] == [];
    } else {
      assert longer[0] == run[0] && longer[1..] == run[1..] + [Elapse(duration)];
      AfterElapse(Apply(s, run[0]), run[1..], duration);
    }
  }

  /** Once a whole day has passed, anybody's claim succeeds. */
  lemma OwnershipLapses(s: State, run: seq<Step>, duration: nat, sessionID: Id, userID: Id)
    requires Init(s) && duration >= OWNER_TTL
    ensures var t := Apply(After(s, run), Elapse(duration));
            |Apply(t, TryClaim(sessionID, userID)).grants| == |t.grants| + 1
  {
    InvAlongRun(s, run);
    AfterElapse(s, run, duration);
    var t := After(s, run + [Elapse(duration)]);
    forall g | g in t.grants ensures g.since + OWNER_TTL <= t.now { assert Respected(After(s, run), g); }
    ClaimGrantedIffFree(s, run + [Elapse(duration)], t, sessionID, userID);
  }

  // ---------------------------------------------------------------- the store

  class SessionOwnerStoreImpl {
    const client: Client

    constructor (client: Client)
      ensures this.client == client
    {
      this.client := client;
    }

    /**
     `ok` is whether Redis answers; an error claims nothing. A free or expired session becomes the user's for exactly
     a day; one that is owned stays as it is, and the claim tells whether the owner is the user. No other key changes.
     */
    method ClaimOwner(sessionID: Id, userID: Id, ok: bool) returns (owned: bool, err: bool)
      modifies client
      ensures err <==> !ok
      ensures client.now == old(client.now)
      ensures (client.db, owned) == if ok then Claim(old(client.db), sessionID, userID, client.now)
          else (old(client.db), false)
      ensures ok && Get(old(client.db), OwnerKey(sessionID), client.now) == None ==>
                owned && forall later: nat ::
                  Get(client.db, OwnerKey(sessionID), later)
                    == if later < client.now + OWNER_TTL then Some(userID) else None
      ensures ok && Get(old(client.db), OwnerKey(sessionID), client.now) != None ==>
                client.db == old(client.db) &&
                (owned <==> Get(old(client.db), OwnerKey(sessionID), client.now) == Some(userID))
      ensures !ok ==> !owned && client.db == old(client.db)
      ensures client.db - {OwnerKey(sessionID)} == old(client.db) - {OwnerKey(sessionID)}
      ensures forall r, now :: Found(client.db, r, now) == Found(old(client.db), r, now)
    {
      forall r ensures OwnerKey(sessionID) != CallbackKey(r) { OwnersAndCallbacksDisjoint(sessionID, r); }
      if !ok {
        return false, true;
      }
      var key := OwnerKey(sessionID);
      if key in client.db && client.now < client.db[key].deadline {
        return client.db[key].value == userID, false;
      }
      client.db := client.db[key := Entry(userID, client.now + OWNER_TTL)];
      return true, false;
    }

    method GetOwner(sessionID: Id, ok: bool) returns (owner: Option<string>)
      ensures owner == if ok then Get(client.db, OwnerKey(sessionID), client.now) else None
    {
      var key := OwnerKey(sessionID);
      owner := None;
      if ok && key in client.db && client.now < client.db[key].deadline {
        owner := Some(client.db[key].value);
      }
    }
  }
}
