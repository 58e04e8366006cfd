/**
  The registry of event keys of the server: an indexed priority queue whose keys are
  expiration deadlines.
*/
module KeyRegistry {
  import opened IndexedPriorityQueue
  import opened Wrappers

  type EventKey = nat

  /** The last instant that a monotonic time can denote, in nanoseconds. */
  const MAX_TIME: int := 0x7fff_ffff_ffff_ffff * 1_000_000_000 + 999_999_999

  /** The entries that have not expired before `now`. */
  ghost function Unexpired(m: map<InsertKey, Entry<EventKey>>, now: int): map<InsertKey, Entry<EventKey>> {
    map k | k in m && m[k].key >= now :: m[k]
  }

  lemma NoneExpired(m: map<InsertKey, Entry<EventKey>>, first: InsertKey, now: int)
    requires IsFirst(first, m) && m[first].key >= now
    ensures Unexpired(m, now) == m
  {
  }

  lemma OneExpired(m: map<InsertKey, Entry<EventKey>>, k: InsertKey, now: int)
    requires k in m && m[k].key < now
    ensures Unexpired(m - {k}, now) == Unexpired(m, now)
  {
  }

  class Registry {
    const keys: Queue<EventKey>

    ghost predicate Valid()
      reads this, keys
    {
      keys.Valid()
    }

    constructor ()
      ensures Valid() && fresh(keys) && keys.contents == map[]
    {
      keys := new Queue<EventKey>();
    }

    method InsertKey(eventKey: EventKey, expiration: int) returns (id: InsertKey)
      requires Valid()
      modifies keys
      ensures Valid() && id !in old(keys.contents)
      ensures keys.contents == old(keys.contents)[id := Entry(expiration, eventKey)]
    {
      id := keys.Insert(expiration, eventKey);
    }

    /** An eternal key expires at no time that exists. */
    method InsertEternalKey(eventKey: EventKey) returns (id: InsertKey)
      requires Valid()
      modifies keys
      ensures Valid() && id !in old(keys.contents)
      ensures keys.contents == old(keys.contents)[id := Entry(MAX_TIME, eventKey)]
      ensures forall now :: now <= MAX_TIME ==> id in Unexpired(keys.contents, now)
    {
      id := keys.Insert(MAX_TIME, eventKey);
    }

    method ExtractKey(id: InsertKey) returns (r: Option<EventKey>)
      requires Valid()
      modifies keys
      ensures Valid() && keys.contents == old(keys.contents) - {id}
      ensures r == if id in old(keys.contents) then Some(old(keys.contents)[id].value) else None
    {
      var entry := keys.Extract(id);
      r := if entry.Some? then Some(entry.value.value) else None;
    }

    /** Removes exactly the keys with a deadline strictly before `now`. */
    method RemoveExpiredKeys(now: int)
      requires Valid()
      modifies keys
      ensures Valid() && keys.contents == Unexpired(old(keys.contents), now)
    {
      while true
        invariant Valid() && Unexpired(keys.contents, now) == Unexpired(old(keys.contents), now)
        decreases |keys.contents|
      {
        var expiration := keys.PeekKey();
        if expiration.None? {
          assert Unexpired(map[], now) == map[];
          return;
        }
        ghost var m := keys.contents;
        ghost var first :| IsFirst(first, m) && m[first].key == expiration.value;
        if expiration.value >= now {
          NoneExpired(m, first, now);
          return;
        }
        var pulled, k := keys.Pull();
        assert k == first;
        OneExpired(m, first, now);
        FewerKeys(m, k);
      }
    }
  }

  lemma FewerKeys(m: map<InsertKey, Entry<EventKey>>, k: InsertKey)
    requires k in m
    ensures |m - {k}| < |m|
  {
    assert (m - {k}).Keys == m.Keys - {k};
  }
}
