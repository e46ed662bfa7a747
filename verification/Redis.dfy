/** The part of Redis the stores use: string keys with a value that is gone once its deadline has passed. */
module Redis {
  import opened Types

  /** Time is counted in milliseconds. */
  datatype Entry = Entry(value: string, deadline: nat)

  type Db = map<string, Entry>

  function Get(db: Db, key: string, now: nat): Option<string> {
    if key in db && now < db[key].deadline then Some(db[key].value) else None
  }

  function SetEx(db: Db, key: string, value: string, ttl: nat, now: nat): Db {
    db[key := Entry(value, now + ttl)]
  }

  /** A key read back within its time to live has the value it was set to; every other key is untouched. */
  lemma GetAfterSet(db: Db, key: string, value: string, ttl: nat, now: nat, later: nat, other: string)
    requires now <= later
    ensures Get(SetEx(db, key, value, ttl, now), key, later) == if later < now + ttl then Some(value) else None
    ensures other != key ==> Get(SetEx(db, key, value, ttl, now), other, later) == Get(db, other, later)
  {
  }

  lemma PrefixedKeysDiffer(prefix: string, a: string, b: string)
    requires a != b
    ensures prefix + a != prefix + b
  {
    if |a| == |b| {
      var i :| 0 <= i < |a| && a[i] != b[i];
      assert (prefix + a)[|prefix| + i] != (prefix + b)[|prefix| + i];
    }
  }

  /** One Redis server; time passes on its own. */
  class Client {
    var db: Db
    var now: nat

    constructor ()
      ensures db == map[] && now == 0
    {
      db, now := map[], 0;
    }

    method Elapse(duration: nat)
      modifies this
      ensures now == old(now) + duration && db == old(db)
    {
      now := now + duration;
    }
  }
}
