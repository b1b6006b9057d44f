/**
 * The three-tier cache with its locks apart: a lookup that releases the tier before it promotes what it found, and
 * an invalidation that purges tier after tier, criterion after criterion, while lookups and Sets go on.
 */
module CacheRuns {
  import opened Text
  import AdvancedCaching

  datatype Criterion = Tag(tag: string) | Pattern(pattern: string)

  /** An entry; `born` is the number of invalidations started before its Set. */
  datatype Item = Item(data: string, tags: seq<string>, born: nat)

  type Items = map<string, Item>

  /** An invalidation whose next purge is that of tier `tier` for criterion number `next`. */
  datatype Invalidation = Invalidation(criteria: seq<Criterion>, next: nat, tier: nat)

  /** A lookup about to look into a tier, or with what it found there and may promote. */
  datatype Lookup = Seeking(key: string, tier: nat) | Found(tier: nat, key: string, item: Item)

  /** Tier 0 is L1. Invalidations are numbered in the order they start. */
  datatype State = State(tiers: seq<Items>, invalidations: seq<Invalidation>, lookups: map<nat, Lookup>)

  /**
   * A lookup visits the tiers from the top, each under its own lock: Pass goes on to the next tier when the key is not
   * there, Find ends the search, Lapse the lookup. Evict is any other removal: eviction, expiry.
   */
  datatype Event =
    | Set(tier: nat, key: string, data: string, tags: seq<string>)
    | Start(criteria: seq<Criterion>)
    | Purge(i: nat)
    | Look(id: nat, key: string)
    | Pass(id: nat)
    | Find(id: nat)
    | Promote(id: nat)
    | Lapse(id: nat)
    | Evict(tier: nat, key: string)

  predicate Matches(c: Criterion, key: string, item: Item) {
    match c
    case Tag(tag) => tag in item.tags
    case Pattern(pattern) => Contains(key, pattern)
  }

  /** Some criterion of the invalidation is met. */
  ghost predicate Hits(inv: Invalidation, key: string, item: Item) {
    exists n :: 0 <= n < |inv.criteria| && Matches(inv.criteria[n], key, item)
  }

  /** A purge of this tier that would remove the entry is still to come. */
  ghost predicate Pending(inv: Invalidation, tier: nat, key: string, item: Item) {
    exists n :: 0 <= n < |inv.criteria| && Ahead(inv, n, tier) && Matches(inv.criteria[n], key, item)
  }

  predicate Ahead(inv: Invalidation, n: nat, tier: nat) {
    inv.next < n || (inv.next == n && inv.tier <= tier)
  }

  predicate Finished(inv: Invalidation) {
    inv.next == |inv.criteria|
  }

  predicate Sound(s: State) {
    |s.tiers| == 3
    && (forall i | 0 <= i < |s.invalidations| ::
         s.invalidations[i].tier < 3 && s.invalidations[i].next <= |s.invalidations[i].criteria|
         && (Finished(s.invalidations[i]) ==> s.invalidations[i].tier == 0))
    && (forall id | id in s.lookups :: s.lookups[id].tier < 3)
  }

  predicate SeeksIn(s: State, id: nat) {
    id in s.lookups && s.lookups[id].Seeking? && s.lookups[id].tier < |s.tiers|
  }

  ghost predicate Enabled(s: State, e: Event) {
    Sound(s) &&
    match e
    case Set(tier, _, _, _) => tier < 3
    case Start(_) => true
    case Purge(i) => i < |s.invalidations| && !Finished(s.invalidations[i])
    case Look(id, _) => id !in s.lookups
    case Pass(id) => SeeksIn(s, id) && s.lookups[id].tier < 2 && s.lookups[id].key !in s.tiers[s.lookups[id].tier]
    case Find(id) => SeeksIn(s, id) && s.lookups[id].key in s.tiers[s.lookups[id].tier]
    case Promote(id) => id in s.lookups && s.lookups[id].Found? && s.lookups[id].tier > 0
    case Lapse(id) => id in s.lookups
    case Evict(tier, _) => tier < 3
  }

  function Advanced(inv: Invalidation): Invalidation {
    if inv.tier == 2 then inv.(next := inv.next + 1, tier := 0) else inv.(tier := inv.tier + 1)
  }

  function Purged(items: Items, c: Criterion): Items {
    map key | key in items && !Matches(c, key, items[key]) :: items[key]
  }

  ghost function Next(s: State, e: Event): State
    requires Enabled(s, e)
  {
    match e
    case Set(tier, key, data, tags) =>
      s.(tiers := s.tiers[tier := s.tiers[tier][key := Item(data, tags, |s.invalidations|)]])
    case Start(criteria) => s.(invalidations := s.invalidations + [Invalidation(criteria, 0, 0)])
    case Purge(i) =>
      var inv := s.invalidations[i];
      s.(tiers := s.tiers[inv.tier := Purged(s.tiers[inv.tier], inv.criteria[inv.next])],
         invalidations := s.invalidations[i := Advanced(inv)])
    case Look(id, key) => s.(lookups := s.lookups[id := Seeking(key, 0)])
    case Pass(id) => s.(lookups := s.lookups[id := Seeking(s.lookups[id].key, s.lookups[id].tier + 1)])
    case Find(id) =>
      var l := s.lookups[id];
      s.(lookups := s.lookups[id := Found(l.tier, l.key, s.tiers[l.tier][l.key])])
    case Promote(id) =>
      var f := s.lookups[id];
      s.(tiers := s.tiers[f.tier - 1 := s.tiers[f.tier - 1][f.key := f.item]][f.tier := s.tiers[f.tier] - {f.key}],
         lookups := s.lookups - {id})
    case Lapse(id) => s.(lookups := s.lookups - {id})
    case Evict(tier, key) => s.(tiers := s.tiers[tier := s.tiers[tier] - {key}])
  }

  ghost predicate Path(s: State, ss: seq<State>, es: seq<Event>) {
    && |ss| == |es| + 1 && ss[0] == s
    && forall k | 0 <= k < |es| :: Enabled(ss[k], es[k]) && ss[k + 1] == Next(ss[k], es[k])
  }

  ghost predicate Run(ss: seq<State>, es: seq<Event>) {
    Path(State([map[], map[], map[]], [], map[]), ss, es)
  }

  lemma PathStep(s: State, ss: seq<State>, es: seq<Event>, k: nat)
    requires Path(s, ss, es) && k < |es|
    ensures Enabled(ss[k], es[k]) && ss[k + 1] == Next(ss[k], es[k])
  {
  }

  lemma StepKeepsSound(s: State, e: Event)
    requires Enabled(s, e)
    ensures Sound(Next(s, e))
  {
  }

  // ----- Entries that have slipped through -----

  /** An invalidation that was started after the entry's Set hits it and has done its last purge of this tier for it. */
  ghost predicate Missed(s: State, i: nat, tier: nat, key: string, item: Item) {
    item.born <= i < |s.invalidations| && Hits(s.invalidations[i], key, item)
        && !Pending(s.invalidations[i], tier, key, item)
  }

  ghost predicate Stale(s: State, tier: nat, key: string, item: Item) {
    exists i :: Missed(s, i, tier, key, item)
  }

  ghost predicate Clean(s: State) {
    forall tier, key | 0 <= tier < |s.tiers| && key in s.tiers[tier] :: !Stale(s, tier, key, s.tiers[tier][key])
  }

  /** The promotion stores its entry in a tier after the last purge for it there. */
  ghost predicate Overtaken(s: State, e: Event) {
    e.Promote? && Enabled(s, e) && Stale(s, s.lookups[e.id].tier - 1, s.lookups[e.id].key, s.lookups[e.id].item)
  }

  /** No invalidation that was started after the entry's Set and is finished hits it. */
  ghost predicate Backed(s: State, key: string, item: Item) {
    forall i | item.born <= i < |s.invalidations| && Finished(s.invalidations[i]) ::
      !Hits(s.invalidations[i], key, item)
  }

  /** A purge takes away exactly what it matches from what is pending. */
  lemma PendingAfterPurge(inv: Invalidation, tier: nat, key: string, item: Item)
    requires inv.next < |inv.criteria| && inv.tier < 3 && tier < 3
    ensures Pending(inv, tier, key, item) <==>
            Pending(Advanced(inv), tier, key, item) || (tier == inv.tier && Matches(inv.criteria[inv.next], key, item))
  {
    var next := Advanced(inv);
    forall n | 0 <= n < |inv.criteria|
      ensures Ahead(inv, n, tier) <==> Ahead(next, n, tier) || (n == inv.next && tier == inv.tier)
    {
    }
    if Pending(inv, tier, key, item) {
      var n :| 0 <= n < |inv.criteria| && Ahead(inv, n, tier) && Matches(inv.criteria[n], key, item);
      assert Ahead(next, n, tier) || (n == inv.next && tier == inv.tier);
    }
    if Pending(next, tier, key, item) {
      var n :| 0 <= n < |inv.criteria| && Ahead(next, n, tier) && Matches(inv.criteria[n], key, item);
      assert Ahead(inv, n, tier);
    }
    if tier == inv.tier && Matches(inv.criteria[inv.next], key, item) {
      assert Ahead(inv, inv.next, tier);
    }
  }

  lemma AllPendingAtStart(criteria: seq<Criterion>, tier: nat, key: string, item: Item)
    ensures Hits(Invalidation(criteria, 0, 0), key, item) <==> Pending(Invalidation(criteria, 0, 0), tier, key, item)
  {
    var inv := Invalidation(criteria, 0, 0);
    assert forall n: nat :: Ahead(inv, n, tier);
  }

  lemma NothingPendingAtEnd(inv: Invalidation, tier: nat, key: string, item: Item)
    requires Finished(inv)
    ensures !Pending(inv, tier, key, item)
  {
  }

  lemma StartKeepsClean(s: State, criteria: seq<Criterion>)
    requires Enabled(s, Start(criteria)) && Clean(s)
    ensures Clean(Next(s, Start(criteria)))
  {
    var t := Next(s, Start(criteria));
    forall tier, key, i | 0 <= tier < |t.tiers| && key in t.tiers[tier]
      ensures !Missed(t, i, tier, key, t.tiers[tier][key])
    {
      assert !Missed(s, i, tier, key, s.tiers[tier][key]);
      AllPendingAtStart(criteria, tier, key, t.tiers[tier][key]);
    }
  }

  lemma PurgeKeepsClean(s: State, j: nat)
    requires Enabled(s, Purge(j)) && Clean(s)
    ensures Clean(Next(s, Purge(j)))
  {
    var t := Next(s, Purge(j));
    forall tier, key, i | 0 <= tier < |t.tiers| && key in t.tiers[tier]
      ensures !Missed(t, i, tier, key, t.tiers[tier][key])
    {
      assert !Missed(s, i, tier, key, s.tiers[tier][key]);
      PendingAfterPurge(s.invalidations[j], tier, key, s.tiers[tier][key]);
    }
  }

  lemma SetKeepsClean(s: State, e: Event)
    requires Enabled(s, e) && Clean(s) && e.Set?
    ensures Clean(Next(s, e))
  {
    var t := Next(s, e);
    forall tier, key, i | 0 <= tier < |t.tiers| && key in t.tiers[tier]
      ensures !Missed(t, i, tier, key, t.tiers[tier][key])
    {
      if tier != e.tier || key != e.key {
        assert !Missed(s, i, tier, key, s.tiers[tier][key]);
      }
    }
  }

  lemma PromoteKeepsCleanIff(s: State, e: Event)
    requires Enabled(s, e) && Clean(s) && e.Promote?
    ensures Clean(Next(s, e)) <==> !Overtaken(s, e)
  {
    var t, f := Next(s, e), s.lookups[e.id];
    var dest := f.tier - 1;
    assert f.key in t.tiers[dest] && t.tiers[dest][f.key] == f.item;
    if Overtaken(s, e) {
      var i :| Missed(s, i, dest, f.key, f.item);
      assert Missed(t, i, dest, f.key, f.item);
    } else {
      forall tier, key, i | 0 <= tier < |t.tiers| && key in t.tiers[tier]
        ensures !Missed(t, i, tier, key, t.tiers[tier][key])
      {
        if tier == dest && key == f.key {
          assert !Missed(s, i, dest, f.key, f.item);
        } else {
          assert !Missed(s, i, tier, key, s.tiers[tier][key]);
        }
      }
    }
  }

  lemma OtherStepKeepsClean(s: State, e: Event)
    requires Enabled(s, e) && Clean(s) && (e.Look? || e.Pass? || e.Find? || e.Lapse? || e.Evict?)
    ensures Clean(Next(s, e))
  {
    var t := Next(s, e);
    forall tier, key, i | 0 <= tier < |t.tiers| && key in t.tiers[tier]
      ensures !Missed(t, i, tier, key, t.tiers[tier][key])
    {
      assert !Missed(s, i, tier, key, s.tiers[tier][key]);
    }
  }

  lemma StepKeepsCleanIff(s: State, e: Event)
    requires Enabled(s, e) && Clean(s)
    ensures Clean(Next(s, e)) <==> !Overtaken(s, e)
  {
    match e
    case Set(_, _, _, _) => SetKeepsClean(s, e);
    case Start(criteria) => StartKeepsClean(s, criteria);
    case Purge(i) => PurgeKeepsClean(s, i);
    case Promote(_) => PromoteKeepsCleanIff(s, e);
    case _ => OtherStepKeepsClean(s, e);
  }

  lemma {:induction false} CleanChain(ss: seq<State>, es: seq<Event>, k: nat)
    requires k <= |es| && |ss| == |es| + 1 && Clean(ss[0])
    requires forall m | 0 <= m < k && Clean(ss[m]) :: Clean(ss[m + 1]) <==> !Overtaken(ss[m], es[m])
    ensures (forall m | 0 <= m <= k :: Clean(ss[m])) <==> forall m | 0 <= m < k :: !Overtaken(ss[m], es[m])
  {
    if k > 0 {
      CleanChain(ss, es, k - 1);
      assert Clean(ss[k - 1]) ==> (Clean(ss[k - 1 + 1]) <==> !Overtaken(ss[k - 1], es[k - 1]));
    }
  }

  /**
   * Over every path from a clean cache: no tier ever holds an entry that slipped through exactly if no promotion is
   * overtaken.
   */
  lemma CleanUnlessOvertaken(s: State, ss: seq<State>, es: seq<Event>, k: nat)
    requires Path(s, ss, es) && Clean(s) && k <= |es|
    ensures (forall m | 0 <= m <= k :: Clean(ss[m])) <==> forall m | 0 <= m < k :: !Overtaken(ss[m], es[m])
  {
    forall m | 0 <= m < k && Clean(ss[m])
      ensures Clean(ss[m + 1]) <==> !Overtaken(ss[m], es[m])
    {
      PathStep(s, ss, es, m);
      StepKeepsCleanIff(ss[m], es[m]);
    }
    CleanChain(ss, es, k);
  }

  ghost predicate Hit(s: State, e: Event) {
    e.Find? && SeeksIn(s, e.id) && s.lookups[e.id].key in s.tiers[s.lookups[e.id].tier]
  }

  /** The lookup finds what a finished invalidation, started after its Set, should have removed. */
  ghost predicate UnbackedHit(s: State, e: Event) {
    Hit(s, e) && var l := s.lookups[e.id]; !Backed(s, l.key, s.tiers[l.tier][l.key])
  }

  lemma CleanHitsAreBacked(s: State, tier: nat, key: string)
    requires Clean(s) && tier < |s.tiers| && key in s.tiers[tier]
    ensures Backed(s, key, s.tiers[tier][key])
  {
    var item := s.tiers[tier][key];
    forall i | item.born <= i < |s.invalidations| && Finished(s.invalidations[i])
      ensures !Hits(s.invalidations[i], key, item)
    {
      NothingPendingAtEnd(s.invalidations[i], tier, key, item);
      assert !Missed(s, i, tier, key, item);
    }
  }

  /** In a run without overtaken promotions every hit is backed, through all promotions, purges, evictions and Sets. */
  lemma HitsAreBacked(ss: seq<State>, es: seq<Event>, k: nat)
    requires Run(ss, es) && k < |es| && es[k].Find?
    requires forall m | 0 <= m < k :: !Overtaken(ss[m], es[m])
    ensures Hit(ss[k], es[k]) && !UnbackedHit(ss[k], es[k])
  {
    CleanUnlessOvertaken(ss[0], ss, es, k);
    assert Clean(ss[k]);
    PathStep(ss[0], ss, es, k);
    CleanHitsAreBacked(ss[k], ss[k].lookups[es[k].id].tier, ss[k].lookups[es[k].id].key);
  }

  // ----- Where entries come from -----

  ghost predicate Stores(s: State, e: Event, key: string, item: Item) {
    e.Set? && e.key == key && item == Item(e.data, e.tags, |s.invalidations|)
  }

  /** A tier or a lookup that may promote it holds the entry. */
  ghost predicate Held(s: State, key: string, item: Item) {
    (exists tier :: 0 <= tier < |s.tiers| && key in s.tiers[tier] && s.tiers[tier][key] == item)
    || exists id :: id in s.lookups && s.lookups[id].Found? && s.lookups[id].key == key && s.lookups[id].item == item
  }

  /** Every entry held anywhere was stored by a Set of its key, with its invalidation count of that moment. */
  lemma {:induction false} EntriesComeFromSets(ss: seq<State>, es: seq<Event>, k: nat, key: string, item: Item)
      returns (j: nat)
    requires Run(ss, es) && k <= |es|
    requires Held(ss[k], key, item)
    ensures j < k && Stores(ss[j], es[j], key, item)
  {
    PathStep(ss[0], ss, es, k - 1);
    if Stores(ss[k - 1], es[k - 1], key, item) {
      j := k - 1;
    } else {
      HeldBefore(ss[k - 1], es[k - 1], key, item);
      j := EntriesComeFromSets(ss, es, k - 1, key, item);
    }
  }

  lemma HeldBefore(s: State, e: Event, key: string, item: Item)
    requires Enabled(s, e) && Held(Next(s, e), key, item) && !Stores(s, e, key, item)
    ensures Held(s, key, item)
  {
  }

  // ----- An overtaken promotion shows -----

  /** The purges an invalidation has still to do, done without interleaving. */
  lemma {:induction false} FinishInvalidation(s: State, i: nat) returns (ss: seq<State>, es: seq<Event>)
    requires Sound(s) && i < |s.invalidations|
    ensures Path(s, ss, es) && forall e | e in es :: e == Purge(i)
    ensures var t := ss[|es|];
            && Sound(t) && t.lookups == s.lookups && |t.invalidations| == |s.invalidations|
            && (forall j | 0 <= j < |s.invalidations| && j != i :: t.invalidations[j] == s.invalidations[j])
            && Finished(t.invalidations[i]) && t.invalidations[i].criteria == s.invalidations[i].criteria
            && forall tier | 0 <= tier < 3 ::
                 t.tiers[tier] == map key | key in s.tiers[tier]
                                            && !Pending(s.invalidations[i], tier, key, s.tiers[tier][key]) ::
                                                s.tiers[tier][key]
    decreases |s.invalidations[i].criteria| - s.invalidations[i].next, 3 - s.invalidations[i].tier
  {
    var inv := s.invalidations[i];
    if Finished(inv) {
      ss, es := [s], [];
    } else {
      var next := Next(s, Purge(i));
      StepKeepsSound(s, Purge(i));
      var ss', es' := FinishInvalidation(next, i);
      ss, es := [s] + ss', [Purge(i)] + es';
    }
  }

  ghost predicate NoPromotion(es: seq<Event>) {
    forall e | e in es :: !e.Promote?
  }

  /** The path ends with a hit on an entry that a finished invalidation, started after its Set, should have removed. */
  ghost predicate EndsUnbacked(ss: seq<State>, es: seq<Event>) {
    es != [] && |ss| == |es| + 1 && UnbackedHit(ss[|es| - 1], es[|es| - 1])
  }

  lemma FreshId(lookups: map<nat, Lookup>) returns (id: nat)
    ensures id !in lookups
  {
    id := FreshFor(lookups.Keys);
  }

  lemma {:induction false} FreshFor(ids: set<nat>) returns (id: nat)
    ensures forall x | x in ids :: x < id
    decreases ids
  {
    id := 0;
    if ids != {} {
      var x :| x in ids;
      var rest := FreshFor(ids - {x});
      assert forall y | y in ids :: y == x || y in ids - {x};
      id := if x < rest then rest else x + 1;
    }
  }

  lemma PathSnoc(s: State, ss: seq<State>, es: seq<Event>, e: Event)
    requires Path(s, ss, es) && Enabled(ss[|es|], e)
    ensures Path(s, ss + [Next(ss[|es|], e)], es + [e])
  {
  }

  /** The copies above the tier leave, and a new lookup of the key comes to the tier. */
  lemma {:induction false} ReachedFromAbove(s: State, ss: seq<State>, es: seq<Event>, id: nat, key: string, tier: nat)
      returns (ss': seq<State>, es': seq<Event>)
    requires Path(s, ss, es) && NoPromotion(es) && Sound(ss[|es|]) && id !in ss[|es|].lookups && tier < 3
    ensures Path(s, ss', es') && NoPromotion(es')
    ensures var t, t' := ss[|es|], ss'[|es'|];
            && Sound(t') && t'.invalidations == t.invalidations
            && id in t'.lookups && t'.lookups[id] == Seeking(key, tier)
            && forall above | tier <= above < 3 :: t'.tiers[above] == t.tiers[above]
  {
    if tier == 0 {
      StepKeepsSound(ss[|es|], Look(id, key));
      PathSnoc(s, ss, es, Look(id, key));
      ss', es' := ss + [Next(ss[|es|], Look(id, key))], es + [Look(id, key)];
    } else {
      ss', es' := ReachedFromAbove(s, ss, es, id, key, tier - 1);
      ss', es' := PassedOn(s, ss', es', id, key, tier - 1);
    }
  }

  lemma PassedOn(s: State, ss: seq<State>, es: seq<Event>, id: nat, key: string, tier: nat)
      returns (ss': seq<State>, es': seq<Event>)
    requires Path(s, ss, es) && NoPromotion(es) && Sound(ss[|es|]) && tier < 2
    requires id in ss[|es|].lookups && ss[|es|].lookups[id] == Seeking(key, tier)
    ensures Path(s, ss', es') && NoPromotion(es')
    ensures var t, t' := ss[|es|], ss'[|es'|];
            && Sound(t') && t'.invalidations == t.invalidations
            && id in t'.lookups && t'.lookups[id] == Seeking(key, tier + 1)
            && forall other | 0 <= other < 3 && other != tier :: t'.tiers[other] == t.tiers[other]
  {
    var evict, pass := Evict(tier, key), Pass(id);
    var evicted := Next(ss[|es|], evict);
    StepKeepsSound(ss[|es|], evict);
    PathSnoc(s, ss, es, evict);
    ss', es' := ss + [evicted], es + [evict];
    StepKeepsSound(evicted, pass);
    PathSnoc(s, ss', es', pass);
    ss', es' := ss' + [Next(evicted, pass)], es' + [pass];
  }

  /** An entry that slipped through is handed out once the invalidation is done. */
  lemma StaleEntryIsServed(s: State, tier: nat, key: string) returns (ss: seq<State>, es: seq<Event>)
    requires Sound(s) && tier < 3 && key in s.tiers[tier] && Stale(s, tier, key, s.tiers[tier][key])
    ensures Path(s, ss, es) && NoPromotion(es) && EndsUnbacked(ss, es)
  {
    var item := s.tiers[tier][key];
    var i: nat :| Missed(s, i, tier, key, item);
    ss, es := FinishInvalidation(s, i);
    var id := FreshId(ss[|es|].lookups);
    assert key in ss[|es|].tiers[tier] && ss[|es|].tiers[tier][key] == item;
    assert Hits(ss[|es|].invalidations[i], key, item);
    ss, es := ReachedFromAbove(s, ss, es, id, key, tier);
    var t := ss[|es|];
    PathSnoc(s, ss, es, Find(id));
    ss, es := ss + [Next(t, Find(id))], es + [Find(id)];
  }

  lemma PromotionFreePathsStayClean(s: State, ss: seq<State>, es: seq<Event>)
    requires Path(s, ss, es) && Clean(s) && NoPromotion(es)
    ensures !EndsUnbacked(ss, es)
  {
    forall m | 0 <= m < |es|
      ensures !Overtaken(ss[m], es[m])
    {
      assert es[m] in es;
    }
    CleanUnlessOvertaken(s, ss, es, |es|);
    if EndsUnbacked(ss, es) {
      var last, e := ss[|es| - 1], es[|es| - 1];
      assert Clean(last);
      CleanHitsAreBacked(last, last.lookups[e.id].tier, last.lookups[e.id].key);
    }
  }

  /**
   * A promotion out of a clean cache lets an invalidated entry be handed out later, without any further promotion,
   * exactly if it is overtaken: its store comes after the last purge of that tier for the entry by an invalidation
   * that was started after the entry's Set.
   */
  lemma PromotionServesInvalidatedIff(s: State, id: nat)
    requires Enabled(s, Promote(id)) && Clean(s)
    ensures (exists ss, es :: Path(Next(s, Promote(id)), ss, es) && NoPromotion(es) && EndsUnbacked(ss, es)) <==>
            Overtaken(s, Promote(id))
  {
    var t, f := Next(s, Promote(id)), s.lookups[id];
    StepKeepsSound(s, Promote(id));
    PromoteKeepsCleanIff(s, Promote(id));
    if Overtaken(s, Promote(id)) {
      var i :| Missed(s, i, f.tier - 1, f.key, f.item);
      assert Missed(t, i, f.tier - 1, f.key, f.item);
      var ss, es := StaleEntryIsServed(t, f.tier - 1, f.key);
    } else {
      forall ss, es | Path(t, ss, es) && NoPromotion(es)
        ensures !EndsUnbacked(ss, es)
      {
        PromotionFreePathsStayClean(t, ss, es);
      }
    }
  }

  /** A lookup that finds the key in L2. */
  function LookupInL2(key: string): seq<Event> {
    [Look(0, key), Pass(0), Find(0)]
  }

  /** Such lookups, one after the other, that promote nothing. */
  function Lookups(key: string, n: nat): seq<Event> {
    if n == 0 then [] else Lookups(key, n - 1) + LookupInL2(key) + [Lapse(0)]
  }

  lemma Extended(ss: seq<State>, es: seq<Event>, e: Event, t: State) returns (ss': seq<State>, es': seq<Event>)
    requires Run(ss, es) && Enabled(ss[|es|], e) && t == Next(ss[|es|], e)
    ensures Run(ss', es') && es' == es + [e] && ss'[|es'|] == t && ss'[|es|] == ss[|es|]
  {
    ss', es' := ss + [t], es + [e];
  }

  lemma FoundInL2(ss: seq<State>, es: seq<Event>, key: string) returns (ss': seq<State>, es': seq<Event>)
    requires Run(ss, es) && Sound(ss[|es|]) && ss[|es|].lookups == map[]
    requires key !in ss[|es|].tiers[0] && key in ss[|es|].tiers[1]
    ensures Run(ss', es') && es' == es + LookupInL2(key)
    ensures var s := ss[|es|]; ss'[|es'|] == s.(lookups := map[0 := Found(1, key, s.tiers[1][key])])
  {
    var s := ss[|es|];
    ss', es' := Extended(ss, es, Look(0, key), s.(lookups := map[0 := Seeking(key, 0)]));
    ss', es' := Extended(ss', es', Pass(0), s.(lookups := map[0 := Seeking(key, 1)]));
    ss', es' := Extended(ss', es', Find(0), s.(lookups := map[0 := Found(1, key, s.tiers[1][key])]));
  }

  lemma {:induction false} LookedUp(ss: seq<State>, es: seq<Event>, key: string, n: nat)
      returns (ss': seq<State>, es': seq<Event>)
    requires Run(ss, es) && Sound(ss[|es|]) && ss[|es|].lookups == map[]
    requires key !in ss[|es|].tiers[0] && key in ss[|es|].tiers[1]
    ensures Run(ss', es') && es' == es + Lookups(key, n) && ss'[|es'|] == ss[|es|]
  {
    ss', es' := ss, es;
    if n > 0 {
      ss', es' := LookedUp(ss, es, key, n - 1);
      var s := ss'[|es'|];
      ss', es' := FoundInL2(ss', es', key);
      assert ss'[|es'|].lookups - {0} == map[];
      ss', es' := Extended(ss', es', Lapse(0), s);
      assert es' == es + Lookups(key, n);
    }
  }

  lemma PurgeStep(s: State, i: nat, items: Items)
    requires Enabled(s, Purge(i))
    requires var inv := s.invalidations[i];
             inv.tier < |s.tiers| && Purged(s.tiers[inv.tier], inv.criteria[inv.next]) == items
    ensures var inv := s.invalidations[i];
            Next(s, Purge(i)) == s.(tiers := s.tiers[inv.tier := items],
                invalidations := s.invalidations[i := Advanced(inv)])
  {
  }

  /** The last of those lookups starts between two purges of an invalidation and promotes what it finds. */
  lemma PromotedInBetween(ss: seq<State>, es: seq<Event>, key: string, item: Item, tag: string)
      returns (ss': seq<State>, es': seq<Event>)
    requires Run(ss, es) && ss[|es|] == State([map[], map[key := item], map[]], [], map[]) && item.born == 0
    ensures Run(ss', es') && es' == es + ([Start([Tag(tag)]), Purge(0)] + LookupInL2(key) + [Promote(0)])
    ensures ss'[|es'|] == State([map[key := item], map[], map[]], [Invalidation([Tag(tag)], 0, 1)], map[])
  {
    var inv := Invalidation([Tag(tag)], 0, 0);
    var s1 := ss[|es|];
    var s2 := s1.(invalidations := [inv]);
    var s3 := s1.(invalidations := [inv.(tier := 1)]);
    var s5 := s3.(tiers := [map[key := item], map[], map[]]);
    ss', es' := Extended(ss, es, Start([Tag(tag)]), s2);
    assert s2.tiers[0 := map[]] == s2.tiers;
    PurgeStep(s2, 0, map[]);
    ss', es' := Extended(ss', es', Purge(0), s3);
    ss', es' := FoundInL2(ss', es', key);
    var s4 := ss'[|es'|];
    assert s4.tiers[1] - {key} == map[] && s4.lookups - {0} == map[];
    ss', es' := Extended(ss', es', Promote(0), s5);
  }

  lemma InvalidationEnds(ss: seq<State>, es: seq<Event>, key: string, item: Item, tag: string)
      returns (ss': seq<State>, es': seq<Event>)
    requires Run(ss, es)
    requires ss[|es|] == State([map[key := item], map[], map[]], [Invalidation([Tag(tag)], 0, 1)], map[])
    ensures Run(ss', es') && es' == es + [Purge(0), Purge(0)]
    ensures ss'[|es'|] == State([map[key := item], map[], map[]], [Invalidation([Tag(tag)], 1, 0)], map[])
  {
    var s5 := ss[|es|];
    var inv := s5.invalidations[0];
    var s6 := s5.(invalidations := [inv.(tier := 2)]);
    var s7 := s5.(invalidations := [inv.(next := 1, tier := 0)]);
    assert s5.tiers[1 := map[]] == s5.tiers && s5.tiers[2 := map[]] == s5.tiers;
    PurgeStep(s5, 0, map[]);
    ss', es' := Extended(ss, es, Purge(0), s6);
    PurgeStep(s6, 0, map[]);
    ss', es' := Extended(ss', es', Purge(0), s7);
  }

  /** The invalidation ends, and a lookup finds the entry. */
  lemma ServedAfterwards(ss: seq<State>, es: seq<Event>, key: string, item: Item, tag: string)
      returns (ss': seq<State>, es': seq<Event>)
    requires Run(ss, es) && item.born == 0 && tag in item.tags
    requires ss[|es|] == State([map[key := item], map[], map[]], [Invalidation([Tag(tag)], 0, 1)], map[])
    ensures Run(ss', es') && es' == es + [Purge(0), Purge(0), Look(0, key), Find(0)] && EndsUnbacked(ss', es')
  {
    ss', es' := InvalidationEnds(ss, es, key, item, tag);
    var s7 := ss'[|es'|];
    var s8 := s7.(lookups := map[0 := Seeking(key, 0)]);
    ss', es' := Extended(ss', es', Look(0, key), s8);
    ss', es' := Extended(ss', es', Find(0), s7.(lookups := map[0 := Found(0, key, item)]));
    assert Matches(s8.invalidations[0].criteria[0], key, item);
    assert Finished(s8.invalidations[0]) && Hits(s8.invalidations[0], key, item);
  }

  /**
   * An entry of L2 is looked up nine times; the tenth lookup, which promotes it, since its access count started at one
   * and now exceeds ten, and the promotion fall between two purges of one invalidation by its tag.
   */
  lemma PromotionBetweenPurges(key: string, data: string, tag: string) returns (ss: seq<State>, es: seq<Event>)
    ensures es == [Set(1, key, data, [tag])] + Lookups(key, 9)
                  + ([Start([Tag(tag)]), Purge(0)] + LookupInL2(key) + [Promote(0)])
                  + [Purge(0), Purge(0), Look(0, key), Find(0)]
    ensures Run(ss, es) && EndsUnbacked(ss, es)
  {
    var item := Item(data, [tag], 0);
    var s1 := State([map[], map[key := item], map[]], [], map[]);
    ss, es := [State([map[], map[], map[]], [], map[])], [];
    ss, es := Extended(ss, es, Set(1, key, data, [tag]), s1);
    ss, es := LookedUp(ss, es, key, 9);
    ss, es := PromotedInBetween(ss, es, key, item, tag);
    ss, es := ServedAfterwards(ss, es, key, item, tag);
  }

  // ----- The atomic invalidation -----

  function CriteriaOf(tags: seq<string>, patterns: seq<string>): seq<Criterion> {
    seq(|tags|, i requires 0 <= i < |tags| => Tag(tags[i]))
        + seq(|patterns|, i requires 0 <= i < |patterns| => Pattern(patterns[i]))
  }

  /** Done without interleaving, an invalidation leaves in each tier what the atomic one leaves. */
  lemma UninterruptedInvalidation(s: State, tags: seq<string>, patterns: seq<string>)
      returns (ss: seq<State>, es: seq<Event>)
    requires Sound(s)
    ensures Path(s, ss, es) && es != [] && es[0] == Start(CriteriaOf(tags, patterns))
    ensures forall tier, key | 0 <= tier < 3 ::
              tier < |ss[|es|].tiers|
              && (key in ss[|es|].tiers[tier] <==>
                   key in s.tiers[tier]
                   && !AdvancedCaching.Hits(AdvancedCaching.Drop(tags, patterns), key, s.tiers[tier][key].tags))
  {
    var criteria, i := CriteriaOf(tags, patterns), |s.invalidations|;
    var started := Next(s, Start(criteria));
    StepKeepsSound(s, Start(criteria));
    ss, es := FinishInvalidation(started, i);
    forall tier, key | 0 <= tier < 3 && key in s.tiers[tier]
      ensures Pending(started.invalidations[i], tier, key, s.tiers[tier][key]) <==>
              AdvancedCaching.Hits(AdvancedCaching.Drop(tags, patterns), key, s.tiers[tier][key].tags)
    {
      AllPendingAtStart(criteria, tier, key, s.tiers[tier][key]);
      CriteriaHit(tags, patterns, key, s.tiers[tier][key]);
    }
    ss, es := [s] + ss, [Start(criteria)] + es;
  }

  lemma CriteriaHit(tags: seq<string>, patterns: seq<string>, key: string, item: Item)
    ensures Hits(Invalidation(CriteriaOf(tags, patterns), 0, 0), key, item) <==>
            AdvancedCaching.Hits(AdvancedCaching.Drop(tags, patterns), key, item.tags)
  {
    var criteria := CriteriaOf(tags, patterns);
    assert forall n | 0 <= n < |tags| :: criteria[n] == Tag(tags[n]);
    assert forall n | 0 <= n < |patterns| :: criteria[|tags| + n] == Pattern(patterns[n]);
    if AdvancedCaching.Hits(AdvancedCaching.Drop(tags, patterns), key, item.tags) {
      if t :| t in tags && t in item.tags {
        var n :| 0 <= n < |tags| && tags[n] == t;
        assert Matches(criteria[n], key, item);
      } else {
        var p :| p in patterns && Contains(key, p);
        var n :| 0 <= n < |patterns| && patterns[n] == p;
        assert Matches(criteria[|tags| + n], key, item);
      }
    }
  }
}
