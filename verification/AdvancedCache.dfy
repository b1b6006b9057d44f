/** The three-tier cache, its methods uninterrupted; CacheRuns takes lookups and invalidations apart. */
module AdvancedCaching {
  import opened Text
  import opened Eviction

  datatype Entry = Entry(data: string, tags: seq<string>, expiresAt: int, accessCount: nat, lastAccess: int)

  type Tier = map<string, Entry>

  datatype TierName = L1 | L2 | L3

  datatype Policy = Policy(ttl: int, tier: TierName, tags: seq<string>)

  const DEFAULT_POLICY := Policy(300, L2, ["default"])

  /** One Set, or one Invalidate with its tags and patterns. */
  datatype Op = Put(key: string, data: string, tags: seq<string>, expiresAt: int)
      | Drop(dropTags: seq<string>, patterns: seq<string>)

  predicate Hits(op: Op, key: string, tags: seq<string>) {
    op.Drop? && ((exists t :: t in op.dropTags && t in tags) || (exists p :: p in op.patterns && Contains(key, p)))
  }

  /** The value was put under the key at some time and no matching invalidation came after. */
  ghost predicate Backed(history: seq<Op>, key: string, e: Entry) {
    exists i :: 0 <= i < |history| && BackedAt(history, key, e, i)
  }

  ghost predicate BackedAt(history: seq<Op>, key: string, e: Entry, i: nat)
    requires i < |history|
  {
    && history[i] == Put(key, e.data, e.tags, e.expiresAt)
    && forall j | i < j < |history| :: !Hits(history[j], key, e.tags)
  }

  ghost predicate AllBacked(history: seq<Op>, tier: Tier) {
    forall k | k in tier :: Backed(history, k, tier[k])
  }

  /** The same value after one more access. */
  function Touched(e: Entry, now: int): (t: Entry)
    ensures t == Entry(e.data, e.tags, e.expiresAt, e.accessCount + 1, now)
  {
    e.(accessCount := e.accessCount + 1, lastAccess := now)
  }

  predicate Fresh(tier: Tier, key: string, now: int) {
    key in tier && now <= tier[key].expiresAt
  }

  function Surviving(tier: Tier, op: Op): Tier {
    map k | k in tier && !Hits(op, k, tier[k].tags) :: tier[k]
  }

  function Unexpired(tier: Tier, now: int): Tier {
    map k | k in tier && now <= tier[k].expiresAt :: tier[k]
  }

  /** Exactly the entries that carry none of the tags and match none of the patterns are left, as they were. */
  lemma InvalidationLeaves(tier: Tier, tags: seq<string>, patterns: seq<string>, k: string)
    ensures var after := Surviving(tier, Drop(tags, patterns));
            && (k in after <==> k in tier && (forall t | t in tags :: t !in tier[k].tags)
                                && forall p | p in patterns :: !Contains(k, p))
            && (k in after ==> after[k] == tier[k])
  {
  }

  /** Exactly the entries that expire at `now` or later are left, as they were. */
  lemma CleanupLeaves(tier: Tier, now: int, k: string)
    ensures var after := Unexpired(tier, now);
            (k in after <==> k in tier && tier[k].expiresAt >= now) && (k in after ==> after[k] == tier[k])
  {
  }

  ghost predicate LeastRecent(tier: Tier, k: string)
    requires k in tier
  {
    forall m | m in tier :: tier[k].lastAccess <= tier[m].lastAccess
  }

  function AccessTimes(tier: Tier): map<string, int> {
    map k | k in tier :: tier[k].lastAccess
  }

  /**
   * `after` is the tier, less one least recently used entry if it was full; an empty key that is strictly the oldest
   * may prevent that.
   */
  ghost predicate MadeRoom(tier: Tier, after: Tier, limit: nat) {
    (after == tier && (|tier| < limit || !HasCandidate(AccessTimes(tier))))
    || (|tier| >= limit && exists v :: v in tier && v != "" && after == tier - {v}
                                       && (HasCandidate(AccessTimes(tier)) ==> LeastRecent(tier, v)))
  }

  ghost predicate StoredIn(tier: Tier, after: Tier, limit: nat, key: string, e: Entry) {
    exists room :: MadeRoom(tier, room, limit) && after == room[key := e]
  }

  ghost predicate Within(tier: Tier, limit: nat) {
    "" !in tier && |tier| <= limit
  }

  /** storeInL1, storeInL2 and storeInL3. */
  method StoreIn(tier: Tier, limit: nat, key: string, e: Entry, ghost history: seq<Op>) returns (after: Tier)
    requires limit > 0 && AllBacked(history, tier) && Backed(history, key, e)
    ensures AllBacked(history, after)
    ensures StoredIn(tier, after, limit, key, e)
    ensures Within(tier, limit) && key != "" ==> Within(after, limit)
  {
    var room := MakeRoom(tier, limit, history);
    after := room[key := e];
    PutSize(room, key, e);
    assert MadeRoom(tier, room, limit);
  }

  lemma PutSize(room: Tier, key: string, e: Entry)
    ensures |room[key := e]| <= |room| + 1
  {
    assert room[key := e].Keys == room.Keys + {key};
  }

  /** evictFromL1, evictFromL2 and evictFromL3, called when the tier is full. */
  method MakeRoom(tier: Tier, limit: nat, ghost history: seq<Op>) returns (room: Tier)
    requires limit > 0 && AllBacked(history, tier)
    ensures AllBacked(history, room) && MadeRoom(tier, room, limit)
    ensures Within(tier, limit) ==> "" !in room && |room| < limit
  {
    room := tier;
    if |tier| >= limit {
      var times := AccessTimes(tier);
      assert times.Keys == tier.Keys;
      NoCandidateMeansEmptyOldest(times);
      var victim, _ := EvictOldest(times);
      if victim != "" {
        room := tier - {victim};
        assert room.Keys == tier.Keys - {victim};
      }
    }
  }

  lemma BackingSurvives(history: seq<Op>, op: Op, key: string, e: Entry)
    requires Backed(history, key, e) && !Hits(op, key, e.tags)
    ensures Backed(history + [op], key, e)
  {
    var i :| 0 <= i < |history| && BackedAt(history, key, e, i);
    assert BackedAt(history + [op], key, e, i);
  }

  lemma TierSurvives(history: seq<Op>, op: Op, tier: Tier)
    requires AllBacked(history, tier) && forall k | k in tier :: !Hits(op, k, tier[k].tags)
    ensures AllBacked(history + [op], tier)
  {
    forall k | k in tier
      ensures Backed(history + [op], k, tier[k])
    {
      BackingSurvives(history, op, k, tier[k]);
    }
  }

  class AdvancedCache {
    var l1: Tier
    var l2: Tier
    var l3: Tier
    const maxL1: nat := 1000
    const maxL2: nat := 5000
    const maxL3: nat := 10000
    ghost var history: seq<Op>

    ghost predicate Valid()
      reads this
    {
      AllBacked(history, l1) && AllBacked(history, l2) && AllBacked(history, l3)
    }

    ghost predicate Bounded()
      reads this
    {
      Within(l1, maxL1) && Within(l2, maxL2) && Within(l3, maxL3)
    }

    constructor ()
      ensures Valid() && Bounded() && history == [] && l1 == l2 == l3 == map[]
      ensures maxL1 == 1000 && maxL2 == 5000 && maxL3 == 10000
    {
      l1, l2, l3, history := map[], map[], map[], [];
    }

    method Get(key: string, now: int) returns (hit: Option<Entry>)
      requires Valid()
      modifies this
      ensures Valid() && history == old(history)
      ensures old(Bounded()) ==> Bounded()
      ensures hit.Some? ==> Backed(history, key, hit.value) && now <= hit.value.expiresAt
      ensures hit == old(if Fresh(l1, key, now) then Some(Touched(l1[key], now))
                         else if Fresh(l2, key, now) then Some(Touched(l2[key], now))
                         else if Fresh(l3, key, now) then Some(Touched(l3[key], now))
                         else None)
      ensures old(Fresh(l1, key, now)) ==> l1 == old(l1)[key := hit.value] && l2 == old(l2) && l3 == old(l3)
      ensures old(!Fresh(l1, key, now) && Fresh(l2, key, now)) ==>
                l3 == old(l3)
                && if hit.value.accessCount > 10 then StoredIn(old(l1), l1, maxL1, key, hit.value)
                    && l2 == old(l2) - {key}
                   else l1 == old(l1) && l2 == old(l2)[key := hit.value]
      ensures old(!Fresh(l1, key, now) && !Fresh(l2, key, now) && Fresh(l3, key, now)) ==>
                l1 == old(l1)
                && if hit.value.accessCount > 5 then StoredIn(old(l2), l2, maxL2, key, hit.value)
                    && l3 == old(l3) - {key}
                   else l2 == old(l2) && l3 == old(l3)[key := hit.value]
      ensures hit == None ==> l1 == old(l1) && l2 == old(l2) && l3 == old(l3)
    {
      if key in l1 && !(now > l1[key].expiresAt) {
        var entry := Touched(l1[key], now);
        SameValueBacked(l1[key], entry, key);
        l1 := Replaced(l1, key, entry);
        return Some(entry);
      }
      if key in l2 && !(now > l2[key].expiresAt) {
        var entry := HitL2(key, now);
        return Some(entry);
      }
      if key in l3 && !(now > l3[key].expiresAt) {
        var entry := HitL3(key, now);
        return Some(entry);
      }
      hit := None;
    }

    method HitL2(key: string, now: int) returns (entry: Entry)
      requires Valid() && key in l2
      modifies `l1, `l2
      ensures Valid() && (old(Bounded()) ==> Bounded())
      ensures entry == Touched(old(l2)[key], now) && Backed(history, key, entry)
      ensures if entry.accessCount > 10 then StoredIn(old(l1), l1, maxL1, key, entry) && l2 == old(l2) - {key}
              else l1 == old(l1) && l2 == old(l2)[key := entry]
    {
      entry := Touched(l2[key], now);
      SameValueBacked(l2[key], entry, key);
      if entry.accessCount > 10 {
        PromoteToL1(key, entry);
      } else {
        l2 := Replaced(l2, key, entry);
      }
    }

    method HitL3(key: string, now: int) returns (entry: Entry)
      requires Valid() && key in l3
      modifies `l2, `l3
      ensures Valid() && (old(Bounded()) ==> Bounded())
      ensures entry == Touched(old(l3)[key], now) && Backed(history, key, entry)
      ensures if entry.accessCount > 5 then StoredIn(old(l2), l2, maxL2, key, entry) && l3 == old(l3) - {key}
              else l2 == old(l2) && l3 == old(l3)[key := entry]
    {
      entry := Touched(l3[key], now);
      SameValueBacked(l3[key], entry, key);
      if entry.accessCount > 5 {
        PromoteToL2(key, entry);
      } else {
        l3 := Replaced(l3, key, entry);
      }
    }

    /** Access statistics do not matter for where a value came from. */
    lemma SameValueBacked(a: Entry, b: Entry, key: string)
      requires Backed(history, key, a) && a.data == b.data && a.tags == b.tags && a.expiresAt == b.expiresAt
      ensures Backed(history, key, b)
    {
      var i :| 0 <= i < |history| && BackedAt(history, key, a, i);
      assert BackedAt(history, key, b, i);
    }

    static function Replaced(tier: Tier, key: string, e: Entry): (after: Tier)
      requires key in tier
      ensures after == tier[key := e] && |after| == |tier|
    {
      assert tier[key := e].Keys == tier.Keys;
      tier[key := e]
    }

    static function Removed(tier: Tier, key: string): (after: Tier)
      ensures after == tier - {key} && |after| <= |tier|
    {
      FewerKeys(tier - {key}, tier);
      tier - {key}
    }

    method PromoteToL1(key: string, entry: Entry)
      requires Valid() && key in l2 && Backed(history, key, entry)
      modifies `l1, `l2
      ensures Valid() && (old(Bounded()) ==> Bounded())
      ensures StoredIn(old(l1), l1, maxL1, key, entry) && l2 == old(l2) - {key}
    {
      StoreInL1(key, entry);
      l2 := Removed(l2, key);
    }

    method PromoteToL2(key: string, entry: Entry)
      requires Valid() && key in l3 && Backed(history, key, entry)
      modifies `l2, `l3
      ensures Valid() && (old(Bounded()) ==> Bounded())
      ensures StoredIn(old(l2), l2, maxL2, key, entry) && l3 == old(l3) - {key}
    {
      StoreInL2(key, entry);
      l3 := Removed(l3, key);
    }

    method Set(key: string, data: string, policy: Option<Policy>, now: int)
      requires Valid()
      modifies this
      ensures Valid() && (old(Bounded()) && key != "" ==> Bounded())
      ensures var p := if policy.Some? then policy.value else Policy(300, L2, ["default"]);
              var e := Entry(data, p.tags, now + p.ttl, 1, now);
              && history == old(history) + [Put(key, data, p.tags, now + p.ttl)]
              && (if p.tier == L1 then StoredIn(old(l1), l1, maxL1, key, e) else l1 == old(l1))
              && (if p.tier == L2 then StoredIn(old(l2), l2, maxL2, key, e) else l2 == old(l2))
              && (if p.tier == L3 then StoredIn(old(l3), l3, maxL3, key, e) else l3 == old(l3))
    {
      var p := if policy.Some? then policy.value else DEFAULT_POLICY;
      var entry := Entry(data, p.tags, now + p.ttl, 1, now);
      Record(Put(key, data, p.tags, now + p.ttl));
      assert BackedAt(history, key, entry, |history| - 1);
      match p.tier
      case L1 => StoreInL1(key, entry);
      case L2 => StoreInL2(key, entry);
      case L3 => StoreInL3(key, entry);
    }

    method StoreInL1(key: string, entry: Entry)
      requires Valid() && Backed(history, key, entry)
      modifies `l1
      ensures Valid() && (old(Bounded()) && key != "" ==> Bounded())
      ensures StoredIn(old(l1), l1, maxL1, key, entry)
    {
      l1 := StoreIn(l1, maxL1, key, entry, history);
    }

    method StoreInL2(key: string, entry: Entry)
      requires Valid() && Backed(history, key, entry)
      modifies `l2
      ensures Valid() && (old(Bounded()) && key != "" ==> Bounded())
      ensures StoredIn(old(l2), l2, maxL2, key, entry)
    {
      l2 := StoreIn(l2, maxL2, key, entry, history);
    }

    method StoreInL3(key: string, entry: Entry)
      requires Valid() && Backed(history, key, entry)
      modifies `l3
      ensures Valid() && (old(Bounded()) && key != "" ==> Bounded())
      ensures StoredIn(old(l3), l3, maxL3, key, entry)
    {
      l3 := StoreIn(l3, maxL3, key, entry, history);
    }

    /** Appends to the history an operation that hits no entry. */
    ghost method Record(op: Op)
      requires Valid()
      requires forall k | k in l1 :: !Hits(op, k, l1[k].tags)
      requires forall k | k in l2 :: !Hits(op, k, l2[k].tags)
      requires forall k | k in l3 :: !Hits(op, k, l3[k].tags)
      modifies `history
      ensures Valid() && history == old(history) + [op]
    {
      TierSurvives(history, op, l1);
      TierSurvives(history, op, l2);
      TierSurvives(history, op, l3);
      history := history + [op];
    }

    method Invalidate(tags: seq<string>, patterns: seq<string>)
      requires Valid()
      modifies this
      ensures Valid() && (old(Bounded()) ==> Bounded())
      ensures history == old(history) + [Drop(tags, patterns)]
      ensures l1 == Surviving(old(l1), Drop(tags, patterns))
      ensures l2 == Surviving(old(l2), Drop(tags, patterns))
      ensures l3 == Surviving(old(l3), Drop(tags, patterns))
    {
      l1 := Purged(l1, tags, patterns);
      l2 := Purged(l2, tags, patterns);
      l3 := Purged(l3, tags, patterns);
      Record(Drop(tags, patterns));
    }

    /** The tag and pattern loops over one tier. */
    static method Purged(tier: Tier, tags: seq<string>, patterns: seq<string>) returns (after: Tier)
      ensures after == Surviving(tier, Drop(tags, patterns)) && |after| <= |tier|
    {
      after := PurgedByTags(tier, tags);
      for i := 0 to |patterns|
        invariant after == Surviving(tier, Drop(tags, patterns[..i]))
      {
        after := map k | k in after && !Contains(k, patterns[i]) :: after[k];
        assert patterns[..i + 1] == patterns[..i] + [patterns[i]];
      }
      assert patterns[..|patterns|] == patterns;
      FewerKeys(after, tier);
    }

    static method PurgedByTags(tier: Tier, tags: seq<string>) returns (after: Tier)
      ensures after == Surviving(tier, Drop(tags, []))
    {
      after := tier;
      for i := 0 to |tags|
        invariant after == Surviving(tier, Drop(tags[..i], []))
      {
        after := map k | k in after && tags[i] !in after[k].tags :: after[k];
        assert tags[..i + 1] == tags[..i] + [tags[i]];
      }
      assert tags[..|tags|] == tags;
    }

    method CleanupExpired(now: int)
      requires Valid()
      modifies this
      ensures Valid() && history == old(history) && (old(Bounded()) ==> Bounded())
      ensures l1 == Unexpired(old(l1), now) && l2 == Unexpired(old(l2), now) && l3 == Unexpired(old(l3), now)
    {
      l1 := Swept(l1, now);
      l2 := Swept(l2, now);
      l3 := Swept(l3, now);
    }

    static method Swept(tier: Tier, now: int) returns (after: Tier)
      ensures after == Unexpired(tier, now) && |after| <= |tier|
    {
      after := tier;
      var todo := tier.Keys;
      while todo != {}
        invariant todo <= tier.Keys
        invariant after == map k | k in tier && (k in todo || now <= tier[k].expiresAt) :: tier[k]
        decreases todo
      {
        var key :| key in todo;
        todo := todo - {key};
        if now > after[key].expiresAt {
          after := after - {key};
        }
      }
      FewerKeys(after, tier);
    }
  }
}
