/** The eviction scan both caches share. */
module Eviction {
  import opened Text

  /** Which key the scan ends with when it visits the keys in this order; "" means none. */
  function Oldest(lastAccess: map<string, int>, order: seq<string>): (k: string)
    requires forall x | x in order :: x in lastAccess
    ensures k == "" || k in order
  {
    if order == [] then ""
    else
      var last := order[|order| - 1];
      var best := Oldest(lastAccess, order[..|order| - 1]);
      if best == "" || lastAccess[last] < lastAccess[best] then last else best
  }

  /** The order visits every key. */
  ghost predicate Visits(order: seq<string>, keys: set<string>) {
    forall x :: x in order <==> x in keys
  }

  /** Used no later than any key. */
  ghost predicate Minimal(lastAccess: map<string, int>, k: string) {
    k in lastAccess && forall x | x in lastAccess :: lastAccess[k] <= lastAccess[x]
  }

  /** Some non-empty key is among the least recently used ones. */
  ghost predicate HasCandidate(lastAccess: map<string, int>) {
    exists k :: k != "" && Minimal(lastAccess, k)
  }

  /** A visit to every key, each once. */
  ghost predicate Scan(order: seq<string>, keys: set<string>) {
    Visits(order, keys) && Distinct(order)
  }

  /** Once a non-empty least recently used key was visited, the scan holds one. */
  lemma {:induction false} CandidateWins(lastAccess: map<string, int>, order: seq<string>, k: string)
    requires (forall x | x in order :: x in lastAccess) && k in order && k != "" && Minimal(lastAccess, k)
    ensures Oldest(lastAccess, order) != "" && Minimal(lastAccess, Oldest(lastAccess, order))
  {
    var front, last := order[..|order| - 1], order[|order| - 1];
    if k in front {
      CandidateWins(lastAccess, front, k);
    }
  }

  /** An empty key doubles as "nothing found yet": visited last and strictly the oldest, it hides every candidate. */
  lemma EmptyKeyHidesAll(lastAccess: map<string, int>, order: seq<string>)
    requires order != [] && order[|order| - 1] == "" && forall x | x in order :: x in lastAccess
    requires forall x | x in lastAccess && x != "" :: lastAccess[""] < lastAccess[x]
    ensures Oldest(lastAccess, order) == ""
  {
  }

  lemma {:induction false} SomeScan(keys: set<string>) returns (order: seq<string>)
    ensures Scan(order, keys)
    decreases keys
  {
    order := [];
    if keys != {} {
      var k :| k in keys;
      var rest := SomeScan(keys - {k});
      order := rest + [k];
    }
  }

  /**
   * Whatever is visited first: the scan ends with a non-empty least recently used key in every order exactly if there
   * is one.
   */
  lemma ScanFindsOldestIff(lastAccess: map<string, int>)
    ensures HasCandidate(lastAccess) <==>
            forall order | Scan(order, lastAccess.Keys) ::
              Oldest(lastAccess, order) != "" && Minimal(lastAccess, Oldest(lastAccess, order))
  {
    if HasCandidate(lastAccess) {
      var k :| k != "" && Minimal(lastAccess, k);
      forall order | Scan(order, lastAccess.Keys)
        ensures Oldest(lastAccess, order) != "" && Minimal(lastAccess, Oldest(lastAccess, order))
      {
        CandidateWins(lastAccess, order, k);
      }
    } else {
      var rest := SomeScan(lastAccess.Keys - {""});
      var order := if "" in lastAccess then rest + [""] else rest;
      assert Scan(order, lastAccess.Keys);
      if Oldest(lastAccess, order) != "" && Minimal(lastAccess, Oldest(lastAccess, order)) {
        assert HasCandidate(lastAccess);
      }
    }
  }

  /** Without a candidate the empty key is strictly the oldest, and a scan that visits it last evicts nothing. */
  lemma NoCandidateMeansEmptyOldest(lastAccess: map<string, int>)
    requires lastAccess != map[]
    ensures !HasCandidate(lastAccess) <==>
            "" in lastAccess && forall x | x in lastAccess && x != "" :: lastAccess[""] < lastAccess[x]
    ensures !HasCandidate(lastAccess) ==>
              exists order :: Scan(order, lastAccess.Keys) && Oldest(lastAccess, order) == ""
  {
    var k := SomeMinimal(lastAccess, lastAccess.Keys);
    if !HasCandidate(lastAccess) {
      assert Minimal(lastAccess, k);
      forall x | x in lastAccess && x != ""
        ensures lastAccess[""] < lastAccess[x]
      {
        assert !Minimal(lastAccess, x);
      }
      var rest := SomeScan(lastAccess.Keys - {""});
      var order := rest + [""];
      assert Scan(order, lastAccess.Keys);
      EmptyKeyHidesAll(lastAccess, order);
    }
  }

  lemma {:induction false} SomeMinimal(lastAccess: map<string, int>, keys: set<string>) returns (k: string)
    requires keys != {} && keys <= lastAccess.Keys
    ensures k in keys && forall x | x in keys :: lastAccess[k] <= lastAccess[x]
    decreases keys
  {
    k :| k in keys;
    if keys != {k} {
      var other := SomeMinimal(lastAccess, keys - {k});
      if lastAccess[other] < lastAccess[k] {
        k := other;
      }
    }
  }

  method EvictOldest(lastAccess: map<string, int>) returns (victim: string, ghost order: seq<string>)
    ensures Scan(order, lastAccess.Keys) && victim == Oldest(lastAccess, order)
    ensures victim == "" || victim in lastAccess
    ensures HasCandidate(lastAccess) ==> victim != "" && Minimal(lastAccess, victim)
  {
    victim := "";
    order := [];
    var oldest := 0;
    var todo := lastAccess.Keys;
    while todo != {}
      invariant todo <= lastAccess.Keys
      invariant (forall x :: x in order <==> x in lastAccess.Keys - todo) && Distinct(order)
      invariant victim == Oldest(lastAccess, order)
      invariant victim != "" ==> oldest == lastAccess[victim]
      decreases todo
    {
      var key :| key in todo;
      todo := todo - {key};
      if victim == "" || lastAccess[key] < oldest {
        victim := key;
        oldest := lastAccess[key];
      }
      assert key !in order;
      assert (order + [key])[..|order|] == order;
      order := order + [key];
    }
    if HasCandidate(lastAccess) {
      var k :| k != "" && Minimal(lastAccess, k);
      CandidateWins(lastAccess, order, k);
    }
  }
}

/** The single-tier response cache. */
module ResponseCache {
  import opened Text
  import opened Eviction

  datatype Entry = Entry(data: string, expiresAt: int, accessCount: nat, lastAccess: int)

  datatype Op = Put(key: string, data: string, expiresAt: int) | Drop(pattern: string)

  datatype Stored = Stored(data: string, expiresAt: int)

  /** What an unbounded cache that forgets nothing but invalidated keys would hold for the key. */
  ghost function Latest(history: seq<Op>, key: string): Option<Stored> {
    if history == [] then None
    else match history[|history| - 1]
      case Put(k, data, expiresAt) =>
        if k == key then Some(Stored(data, expiresAt)) else Latest(history[..|history| - 1], key)
      case Drop(pattern) =>
        if Contains(key, pattern) then None else Latest(history[..|history| - 1], key)
  }

  function AccessTimes(entries: map<string, Entry>): map<string, int> {
    map k | k in entries :: entries[k].lastAccess
  }

  function Limit(maxEntries: int): nat {
    if maxEntries < 1 then 1 else maxEntries
  }

  function Unmatched(entries: map<string, Entry>, pattern: string): map<string, Entry> {
    map k | k in entries && !Contains(k, pattern) :: entries[k]
  }

  function Unexpired(entries: map<string, Entry>, now: int): map<string, Entry> {
    map k | k in entries && now <= entries[k].expiresAt :: entries[k]
  }

  ghost predicate LeastRecent(entries: map<string, Entry>, k: string)
    requires k in entries
  {
    forall m | m in entries :: entries[k].lastAccess <= entries[m].lastAccess
  }

  class Cache {
    const maxEntries: int
    const defaultTtl: int
    var entries: map<string, Entry>
    ghost var history: seq<Op>

    /** Every entry is what the latest Set of its key stored. */
    ghost predicate Valid()
      reads this
    {
      forall k | k in entries :: Latest(history, k) == Some(Stored(entries[k].data, entries[k].expiresAt))
    }

    /** No empty key has come in and the limit holds. */
    predicate Bounded()
      reads this
    {
      "" !in entries && |entries| <= Limit(maxEntries)
    }

    constructor (maxEntries: int, defaultTtl: int)
      ensures Valid() && Bounded() && entries == map[] && history == []
      ensures this.maxEntries == maxEntries && this.defaultTtl == defaultTtl
    {
      this.maxEntries, this.defaultTtl := maxEntries, defaultTtl;
      entries, history := map[], [];
    }

    /** A lookup that nothing interrupts; it gives up its read lock before it deletes an expired entry. */
    method Get(key: string, now: int) returns (hit: Option<Entry>)
      requires Valid()
      modifies this
      ensures Valid() && history == old(history)
      ensures hit.Some? <==> key in old(entries) && now <= old(entries)[key].expiresAt
      ensures hit.Some? ==> now <= hit.value.expiresAt
                            && Latest(history, key) == Some(Stored(hit.value.data, hit.value.expiresAt))
                            && entries == old(entries)[key := hit.value]
                            && hit.value == old(entries)[key].(accessCount := old(entries)[key].accessCount + 1,
                                lastAccess := now)
      ensures hit.None? ==> entries == old(entries) - {key}
      ensures old(Bounded()) ==> Bounded()
    {
      var expired;
      hit, expired := LookUp(key, now);
      if expired {
        Delete(key);
      }
    }

    /** What a lookup does under the read lock. */
    method LookUp(key: string, now: int) returns (hit: Option<Entry>, expired: bool)
      requires Valid()
      modifies `entries
      ensures Valid()
      ensures expired == (key in old(entries) && now > old(entries)[key].expiresAt)
      ensures hit.Some? <==> key in old(entries) && !expired
      ensures hit.Some? ==> Latest(history, key) == Some(Stored(hit.value.data, hit.value.expiresAt))
                            && entries == old(entries)[key := hit.value]
                            && hit.value == old(entries)[key].(accessCount := old(entries)[key].accessCount + 1,
                                lastAccess := now)
      ensures hit.None? ==> entries == old(entries)
      ensures old(Bounded()) ==> Bounded()
    {
      if key !in entries {
        return None, false;
      }
      var entry := entries[key];
      if now > entry.expiresAt {
        return None, true;
      }
      entry := entry.(accessCount := entry.accessCount + 1, lastAccess := now);
      entries := entries[key := entry];
      assert entries.Keys == old(entries).Keys;
      return Some(entry), false;
    }

    /** What it does under the write lock then: an entry that was stored meanwhile goes, too, expired or not. */
    method Delete(key: string)
      requires Valid()
      modifies `entries
      ensures Valid() && key !in entries && entries == old(entries) - {key}
      ensures old(Bounded()) ==> Bounded()
    {
      entries := entries - {key};
      assert entries.Keys == old(entries).Keys - {key};
    }

    method Set(key: string, data: string, ttl: int, now: int)
      requires Valid()
      modifies this
      ensures Valid()
      ensures key in entries && entries[key] == Entry(data, now + if ttl <= 0 then defaultTtl else ttl, 1, now)
      ensures history == old(history) + [Put(key, data, entries[key].expiresAt)]
      ensures forall k | k in entries && k != key :: k in old(entries) && entries[k] == old(entries)[k]
      ensures |old(entries)| < maxEntries ==> entries.Keys == old(entries).Keys + {key}
      ensures old(Bounded()) && key != "" ==> Bounded()
      ensures forall k | HasCandidate(AccessTimes(old(entries))) && k in old(entries) && k !in entries ::
                LeastRecent(old(entries), k)
    {
      var life := if ttl <= 0 then defaultTtl else ttl;
      if |entries| >= maxEntries {
        if entries != map[] {
          NoCandidateMeansEmptyOldest(AccessTimes(entries));
        }
        Evict();
      }
      Store(key, Entry(data, now + life, 1, now));
    }

    method Store(key: string, entry: Entry)
      requires Valid()
      modifies this
      ensures Valid() && history == old(history) + [Put(key, entry.data, entry.expiresAt)]
      ensures entries == old(entries)[key := entry]
      ensures entries.Keys == old(entries).Keys + {key} && |entries| <= |old(entries)| + 1
    {
      entries := entries[key := entry];
      history := history + [Put(key, entry.data, entry.expiresAt)];
      assert history[..|history| - 1] == old(history);
      assert entries.Keys == old(entries).Keys + {key};
    }

    /** evictOldest: unless the empty key is strictly the oldest, a least recently used entry goes. */
    method Evict()
      requires Valid()
      modifies `entries
      ensures Valid()
      ensures entries != old(entries) ==> exists v :: v in old(entries) && entries == old(entries) - {v}
      ensures HasCandidate(AccessTimes(old(entries))) ==>
                |entries| == |old(entries)| - 1
                && forall k | k in old(entries) && k !in entries :: LeastRecent(old(entries), k)
    {
      var victim, _ := EvictOldest(AccessTimes(entries));
      assert AccessTimes(entries).Keys == entries.Keys;
      if victim != "" {
        entries := entries - {victim};
        assert entries.Keys == old(entries).Keys - {victim};
      }
    }

    method Invalidate(pattern: string)
      requires Valid()
      modifies this
      ensures Valid() && history == old(history) + [Drop(pattern)]
      ensures entries == Unmatched(old(entries), pattern)
      ensures forall k :: k in entries <==> k in old(entries) && !Contains(k, pattern)
      ensures forall k | k in entries :: entries[k] == old(entries)[k]
      ensures old(Bounded()) ==> Bounded()
    {
      ghost var before := entries;
      var todo := entries.Keys;
      while todo != {}
        invariant todo <= before.Keys && history == old(history)
        invariant entries == map k | k in before && (k in todo || !Contains(k, pattern)) :: before[k]
        decreases todo
      {
        var key :| key in todo;
        todo := todo - {key};
        if Contains(key, pattern) {
          entries := entries - {key};
        }
      }
      history := history + [Drop(pattern)];
      assert history[..|history| - 1] == old(history);
      FewerKeys(entries, before);
    }

    method CleanupExpired(now: int)
      requires Valid()
      modifies this
      ensures Valid() && history == old(history)
      ensures entries == Unexpired(old(entries), now)
      ensures forall k :: k in entries <==> k in old(entries) && old(entries)[k].expiresAt >= now
      ensures forall k | k in entries :: entries[k] == old(entries)[k]
      ensures old(Bounded()) ==> Bounded()
    {
      ghost var before := entries;
      var todo := entries.Keys;
      while todo != {}
        invariant todo <= before.Keys && history == old(history)
        invariant entries == map k | k in before && (k in todo || now <= before[k].expiresAt) :: before[k]
        decreases todo
      {
        var key :| key in todo;
        todo := todo - {key};
        if now > entries[key].expiresAt {
          entries := entries - {key};
        }
      }
      FewerKeys(entries, before);
    }
  }

  /** Position `i` put the value under the key and nothing after it replaced or invalidated it. */
  ghost predicate LastPutAt(history: seq<Op>, key: string, value: Stored, i: nat)
    requires i < |history|
  {
    && history[i] == Put(key, value.data, value.expiresAt)
    && forall j | i < j < |history| ::
         match history[j] case Put(k, _, _) => k != key case Drop(pattern) => !Contains(key, pattern)
  }

  lemma {:induction false} LatestIsTheLastPut(history: seq<Op>, key: string, value: Stored)
    ensures Latest(history, key) == Some(value) <==> exists i :: 0 <= i < |history| && LastPutAt(history, key, value, i)
  {
    if history != [] {
      var front := history[..|history| - 1];
      LatestIsTheLastPut(front, key, value);
      forall i | 0 <= i < |front|
        ensures LastPutAt(history, key, value, i) <==>
                LastPutAt(front, key, value, i)
                && match history[|front|] case Put(k, _, _) => k != key case Drop(pattern) => !Contains(key, pattern)
      {
        assert front[i] == history[i];
        assert forall j | i < j < |front| :: front[j] == history[j];
      }
      assert history[|front|] == Put(key, value.data, value.expiresAt) <==> LastPutAt(history, key, value, |front|);
    }
  }

  // ----- Keys made by hashing -----

  predicate HexDigit(c: char) {
    '0' <= c <= '9' || 'a' <= c <= 'f'
  }

  predicate HexString(s: string) {
    forall i | 0 <= i < |s| :: HexDigit(s[i])
  }

  const DIGEST_LENGTH := 64

  /** The middleware's keys are the hex digests of SHA-256. */
  predicate HashedKey(key: string) {
    |key| == DIGEST_LENGTH && HexString(key)
  }

  lemma OccurrenceAgrees(s: string, part: string, i: nat, j: nat)
    requires i <= |s| && OccursAt(s, part, i) && j < |part|
    ensures i + j < |s| && s[i + j] == part[j]
  {
    assert s[i..][j] == part[j];
  }

  lemma HashedKeyEscapes(key: string, pattern: string)
    requires HashedKey(key) && (HexString(pattern) ==> |pattern| > DIGEST_LENGTH)
    ensures !Contains(key, pattern)
  {
    var j :| 0 <= j < |pattern| && (|pattern| <= DIGEST_LENGTH ==> !HexDigit(pattern[j]));
    forall i | 0 <= i <= |key|
      ensures !OccursAt(key, pattern, i)
    {
      if OccursAt(key, pattern, i) {
        OccurrenceAgrees(key, pattern, i, if |pattern| > DIGEST_LENGTH then DIGEST_LENGTH else j);
      }
    }
  }

  /** Every short hex string is a pattern for some hashed key. */
  lemma SomeHashedKeyMatches(pattern: string) returns (key: string)
    requires HexString(pattern) && |pattern| <= DIGEST_LENGTH
    ensures HashedKey(key) && Contains(key, pattern)
  {
    key := pattern + seq(DIGEST_LENGTH - |pattern|, _ => '0');
    assert key[0..] == key;
    assert OccursAt(key, pattern, 0);
  }

  ghost predicate HashedTable(entries: map<string, Entry>) {
    forall k | k in entries :: HashedKey(k)
  }

  /**
   * An invalidation removes nothing from any table of hashed keys exactly if its pattern is no hex string, as the
   * patterns naming "Systems" are, or is longer than a digest.
   */
  lemma HashedKeysEscapeIff(pattern: string)
    ensures (forall entries | HashedTable(entries) :: Unmatched(entries, pattern) == entries) <==>
            (HexString(pattern) ==> |pattern| > DIGEST_LENGTH)
  {
    if HexString(pattern) && |pattern| <= DIGEST_LENGTH {
      var key := SomeHashedKeyMatches(pattern);
      var entries := map[key := Entry("", 0, 0, 0)];
      assert HashedTable(entries) && key !in Unmatched(entries, pattern);
    } else {
      forall entries | HashedTable(entries)
        ensures Unmatched(entries, pattern) == entries
      {
        forall k | k in entries {
          HashedKeyEscapes(k, pattern);
        }
      }
    }
  }
}
