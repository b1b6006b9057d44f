/** How long an arming, and a lost boot order, lasts when operations overlap. */
module BootOnceLife {
  import opened Text
  import opened VmSpec
  import opened BootOrder
  import opened BootOnceVm
  import opened BootOnceOverlap
  import VirtualMedia

  // ----- How long a lost order stays lost -----

  /** The disk is configured and there, but the snapshot, or without one the disk itself, gives it another place. */
  predicate Lost(s: State, name: string) {
    && name in s.base && name in Names(DisksOf(s.vm)) && s.vm.saved != Corrupt
    && var given := SavedFor(if s.vm.saved == NoSnapshot then CaptureOf(s.vm).orders else s.vm.saved.orders, name);
       given.Some? && given.value != s.base[name]
  }

  /** The order is set without a snapshot present, or the disk is ejected. */
  predicate Settles(s: State, e: Event, name: string) {
    || (e.EditDisks? && s.vm.saved == NoSnapshot)
    || (e.Patch? && e.id in s.drafts && s.drafts[e.id].Ordering? && s.vm.saved == NoSnapshot)
    || (e.Patch? && e.id in s.drafts && s.drafts[e.id].Unmounting? && s.drafts[e.id].media == name)
  }

  /** Taken alone, a disk's place is a configured order of its own. */
  lemma OnePlace(saved: SavedOrder, name: string, place: Option<nat>)
    ensures Gives(saved, map[name := place]) <==> saved.Snapshot? && SavedFor(saved.orders, name) == Some(place)
  {
  }

  lemma LostMeansHolds(s: State, name: string) returns (place: Option<nat>)
    requires Lost(s, name)
    ensures Holds(s.vm, map[name := place]) && place != s.base[name]
  {
    place := SavedFor(if s.vm.saved == NoSnapshot then CaptureOf(s.vm).orders else s.vm.saved.orders, name).value;
  }

  lemma HoldsMeansLost(s: State, name: string, place: Option<nat>)
    requires Holds(s.vm, map[name := place]) && name in s.base && place != s.base[name] && s.vm.saved != Corrupt
    ensures Lost(s, name)
  {
    OnePlace(if s.vm.saved == NoSnapshot then CaptureOf(s.vm) else s.vm.saved, name, place);
    assert name in map[name := place];
  }

  /** An uninterrupted operation keeps the place that it finds, right or wrong. */
  lemma UninterruptedPatchHolds(s: State, id: nat, name: string, place: Option<nat>)
    requires Sound(s) && Enabled(s, Patch(id)) && s.drafts[id].read == s.vm
    requires Holds(s.vm, map[name := place]) && !Settles(s, Patch(id), name)
    ensures Holds(Next(s, Patch(id)).vm, map[name := place])
  {
    var d, base := s.drafts[id], map[name := place];
    UninterruptedIsAtomic(d);
    MadeSaved(d);
    match d
    case Arming(read, uid, target) => ArmingHolds(read, uid, target, base);
    case Cleaning(read) => CleaningHolds(read, base); GivesMeansHas(Made(d), base);
    case Ordering(read, target) => OverriddenNames(read, target);
    case Recording(_, _) =>
    case Mounting(read, pvc, url) => UninterruptedMountHolds(read, pvc, url, name, place);
    case Unmounting(read, media) =>
      UnmountingHolds(read, media, base);
      assert base - {media} == base;
  }

  lemma UninterruptedMountHolds(vm: Vm, pvc: string, url: string, name: string, place: Option<nat>)
    requires vm.saved != Corrupt && Holds(vm, map[name := place])
    ensures Holds(Mounted(vm, pvc, url), map[name := place])
  {
    var base := map[name := place];
    CdRomAppended(vm, pvc, url);
    assert name in base;
    if CDROM !in Names(DisksOf(vm)) {
      MountingHolds(vm, pvc, url, base);
      assert base[CDROM := None][name] == place;
    }
  }

  lemma BaseStaysAt(s: State, e: Event, name: string)
    requires Enabled(s, e) && !Settles(s, e, name) && name in s.base && name in Names(DisksOf(s.vm))
    requires e.Patch? ==> s.drafts[e.id].read == s.vm
    ensures name in Next(s, e).base && Next(s, e).base[name] == s.base[name]
  {
    if e.Patch? && s.drafts[e.id].Mounting? {
      CdRomAppended(s.vm, s.drafts[e.id].pvc, s.drafts[e.id].url);
    }
  }

  lemma LostStep(s: State, e: Event, name: string)
    requires Sound(s) && Enabled(s, e) && Lost(s, name) && !Settles(s, e, name)
    requires e.Patch? ==> s.drafts[e.id].read == s.vm
    ensures Lost(Next(s, e), name)
  {
    var place := LostMeansHolds(s, name);
    BaseStaysAt(s, e, name);
    StepKeepsSound(s, e);
    match e
    case Patch(id) =>
      UninterruptedPatchHolds(s, id, name, place);
      HoldsMeansLost(Next(s, e), name, place);
    case EditDisks(ds) => SameNames(DisksOf(s.vm), ds);
    case _ =>
  }

  /** A patch that follows its read finds the VM as it was read. */
  lemma RightAfterItsRead(ss: seq<State>, es: seq<Event>, m: nat)
    requires Run(ss, es) && 0 < m < |es| && es[m].Patch? && es[m].id !in ss[m - 1].drafts
    ensures es[m].id in ss[m].drafts && ss[m].drafts[es[m].id].read == ss[m].vm
  {
    RunStep(ss, es, m);
    RunStep(ss, es, m - 1);
    DraftStep(ss[m - 1], es[m - 1], es[m].id);
    ReadsChangeNothing(ss[m - 1], es[m - 1], es[m].id);
  }

  lemma ReadsChangeNothing(s: State, e: Event, id: nat)
    requires Enabled(s, e) && Reads(e, id)
    ensures Next(s, e).vm == s.vm
  {
  }

  ghost predicate LostStepIs(ss: seq<State>, m: nat, name: string)
    requires m + 1 < |ss|
  {
    Lost(ss[m], name) ==> Lost(ss[m + 1], name)
  }

  lemma {:induction false} LostChain(ss: seq<State>, j: nat, k: nat, name: string)
    requires j <= k < |ss| && Lost(ss[j], name) && forall m | j <= m < k :: LostStepIs(ss, m, name)
    ensures Lost(ss[k], name)
  {
    if j < k {
      LostChain(ss, j, k - 1, name);
      assert LostStepIs(ss, k - 1, name);
    }
  }

  /**
   * From then on, without further overlaps, a disk's lost place stays lost through all armings, cleanups, boots,
   * inserts and other ejects, until an order is set without boot-once state present or the disk is ejected.
   */
  lemma LostOrderIsNeverRestored(ss: seq<State>, es: seq<Event>, j: nat, k: nat, name: string)
    requires Run(ss, es) && j <= k <= |es| && Lost(ss[j], name)
    requires forall m | j <= m < k && es[m].Patch? :: j < m && es[m].id !in ss[m - 1].drafts
    requires forall m | j <= m < k :: !Settles(ss[m], es[m], name)
    ensures Lost(ss[k], name) && !Kept(ss[k])
  {
    forall m | j <= m < k
      ensures LostStepIs(ss, m, name)
    {
      RunStep(ss, es, m);
      RunKeepsSound(ss, es, m);
      if es[m].Patch? {
        RightAfterItsRead(ss, es, m);
      }
      if Lost(ss[m], name) {
        LostStep(ss[m], es[m], name);
      }
    }
    LostChain(ss, j, k, name);
  }

  // ----- Whether an arming takes, and how long it lasts -----

  predicate Effective(vm: Vm) {
    vm.armed && vm.saved != NoSnapshot
  }

  /** Re-captured, the snapshot may have changed with the disks, and is then written anew. */
  predicate WritesSnapshot(d: Draft)
    requires WellFormed(d)
  {
    Made(d).saved != d.read.saved
  }

  /** An arming leaves label and snapshot exactly if it writes each of them or finds it still there. */
  lemma ArmingTakesIff(d: Draft, now: Vm)
    requires WellFormed(d) && d.Arming?
    ensures Effective(Landed(d, now))
        <==> (d.read.armed ==> now.armed) && (WritesSnapshot(d) || now.saved != NoSnapshot)
  {
    MadeSaved(d);
    LandedParts(d, now);
    if NullsAll(d) {
      NullsOnlyWhenDeleting(d);
    }
  }

  /** The UID on record once an arming has landed: its own, unless it found that very annotation and left it alone. */
  function UidAfter(d: Draft, now: Vm): string
    requires WellFormed(d) && d.Arming?
  {
    if (d.read.saved != NoSnapshot && SameInstance(d.read, d.uid)) || d.read.savedUid == Some(d.uid) then
      RecordedUid(now)
    else d.uid
  }

  predicate Matched(s: State) {
    Effective(s.vm) && (s.vmi == "" || s.vmi == RecordedUid(s.vm))
  }

  /**
   * The UID an arming leaves matches the running instance exactly if `UidAfter` does; otherwise the very next handler
   * run removes the override, without any reboot.
   */
  lemma ArmingMatchesIff(s: State, id: nat)
    requires Sound(s) && id in s.drafts && s.drafts[id].Arming? && Effective(Landed(s.drafts[id], s.vm))
    ensures var t := Next(s, Patch(id));
            && (Matched(t) <==> s.vmi == "" || s.vmi == UidAfter(s.drafts[id], s.vm))
            && (CleansUp(t.vm, t.vmi) <==> !Matched(t))
  {
    PatchStep(s, id);
    UidLands(s.drafts[id], s.vm);
    StepKeepsSound(s, Patch(id));
  }

  lemma UidLands(d: Draft, now: Vm)
    requires WellFormed(d) && d.Arming?
    ensures RecordedUid(Landed(d, now)) == UidAfter(d, now)
  {
    MadeSaved(d);
    if NullsAll(d) {
      NullsOnlyWhenDeleting(d);
    }
  }

  lemma EffectiveStep(s: State, e: Event)
    requires Sound(s) && Enabled(s, e) && !Arms(s, e)
    ensures Effective(Next(s, e).vm) <==> Effective(s.vm) && !ClearsSnapshot(s, e)
  {
    if e.Patch? {
      MadeSaved(s.drafts[e.id]);
      LandedParts(s.drafts[e.id], s.vm);
    }
  }

  ghost predicate EffectiveStepIs(ss: seq<State>, es: seq<Event>, m: nat)
    requires m < |es| && m + 1 < |ss|
  {
    Effective(ss[m + 1].vm) <==> Effective(ss[m].vm) && !ClearsSnapshot(ss[m], es[m])
  }

  lemma {:induction false} EffectiveChain(ss: seq<State>, es: seq<Event>, j: nat, k: nat)
    requires j <= k <= |es| && |ss| == |es| + 1 && Effective(ss[j].vm)
    requires forall m | j <= m < k :: EffectiveStepIs(ss, es, m)
    ensures Effective(ss[k].vm) <==> forall m | j <= m < k :: !ClearsSnapshot(ss[m], es[m])
  {
    if j < k {
      EffectiveChain(ss, es, j, k - 1);
      assert EffectiveStepIs(ss, es, k - 1);
    }
  }

  /** Until the next arming lands, label and snapshot stay exactly until a cleanup lands or an eject wipes them. */
  lemma ArmingLastsIff(ss: seq<State>, es: seq<Event>, j: nat, k: nat)
    requires Run(ss, es) && j <= k <= |es| && Effective(ss[j].vm)
    requires forall m | j <= m < k :: !Arms(ss[m], es[m])
    ensures Effective(ss[k].vm) <==> forall m | j <= m < k :: !ClearsSnapshot(ss[m], es[m])
  {
    forall m | j <= m < k
      ensures EffectiveStepIs(ss, es, m)
    {
      RunStep(ss, es, m);
      RunKeepsSound(ss, es, m);
      EffectiveStep(ss[m], es[m]);
    }
    EffectiveChain(ss, es, j, k);
  }

  // ----- Which disk list is there -----

  ghost predicate WritesAt(s: State, e: Event) {
    e.EditDisks? || (e.Patch? && e.id in s.drafts && WellFormed(s.drafts[e.id]) && WritesDisks(s.drafts[e.id]))
  }

  /** The disk list that a step writes. */
  ghost function Written(s: State, e: Event): seq<Disk>
    requires WritesAt(s, e)
  {
    if e.EditDisks? then e.ds else DisksOf(Made(s.drafts[e.id]))
  }

  lemma DiskStep(s: State, e: Event)
    requires Enabled(s, e)
    ensures DisksOf(Next(s, e).vm) == if WritesAt(s, e) then Written(s, e) else DisksOf(s.vm)
  {
    if e.Patch? {
      LandedParts(s.drafts[e.id], s.vm);
    }
  }

  ghost predicate DiskStepIs(ss: seq<State>, es: seq<Event>, m: nat)
    requires m < |es| && m + 1 < |ss|
  {
    DisksOf(ss[m + 1].vm) == if WritesAt(ss[m], es[m]) then Written(ss[m], es[m]) else DisksOf(ss[m].vm)
  }

  lemma {:induction false} LastWriter(ss: seq<State>, es: seq<Event>, j: nat, k: nat) returns (last: int)
    requires j <= k <= |es| && |ss| == |es| + 1 && forall m | j <= m < k :: DiskStepIs(ss, es, m)
    ensures last == -1 || (j <= last < k && WritesAt(ss[last], es[last]))
    ensures forall m | j <= m < k && last < m :: !WritesAt(ss[m], es[m])
    ensures DisksOf(ss[k].vm) == if last == -1 then DisksOf(ss[j].vm) else Written(ss[last], es[last])
  {
    last := -1;
    if j < k {
      assert DiskStepIs(ss, es, k - 1);
      if WritesAt(ss[k - 1], es[k - 1]) {
        last := k - 1;
      } else {
        last := LastWriter(ss, es, j, k - 1);
      }
    }
  }

  /**
   * The disks, and with them an override, are as the last step left them that wrote a disk list; `last` is that step,
   * or -1 if none did since `j`.
   */
  lemma DisksAreAsLastWritten(ss: seq<State>, es: seq<Event>, j: nat, k: nat) returns (last: int)
    requires Run(ss, es) && j <= k <= |es|
    ensures last == -1 || (j <= last < k && WritesAt(ss[last], es[last]))
    ensures forall m | j <= m < k && last < m :: !WritesAt(ss[m], es[m])
    ensures DisksOf(ss[k].vm) == if last == -1 then DisksOf(ss[j].vm) else Written(ss[last], es[last])
  {
    forall m | j <= m < k
      ensures DiskStepIs(ss, es, m)
    {
      RunStep(ss, es, m);
      DiskStep(ss[m], es[m]);
    }
    last := LastWriter(ss, es, j, k);
  }

  /**
   * Until the next arming lands, an arming is in force, with label, snapshot and the disks as it left them, exactly if
   * no cleanup landed, no eject wiped it, and the last disk list written since, if any, is the one it left.
   */
  lemma ArmingInForceIff(ss: seq<State>, es: seq<Event>, j: nat, k: nat) returns (last: int)
    requires Run(ss, es) && j <= k <= |es| && Effective(ss[j].vm)
    requires forall m | j <= m < k :: !Arms(ss[m], es[m])
    ensures last == -1 || (j <= last < k && WritesAt(ss[last], es[last]))
    ensures forall m | j <= m < k && last < m :: !WritesAt(ss[m], es[m])
    ensures Effective(ss[k].vm) && DisksOf(ss[k].vm) == DisksOf(ss[j].vm) <==>
            (forall m | j <= m < k :: !ClearsSnapshot(ss[m], es[m]))
            && (last == -1 || Written(ss[last], es[last]) == DisksOf(ss[j].vm))
  {
    ArmingLastsIff(ss, es, j, k);
    last := DisksAreAsLastWritten(ss, es, j, k);
  }

  // ----- What ends an arming before the next boot -----

  lemma MatchedStep(s: State, e: Event)
    requires Sound(s) && Enabled(s, e) && Matched(s) && !Arms(s, e) && !ClearsSnapshot(s, e) && !e.Start?
    ensures Matched(Next(s, e))
  {
    EffectiveStep(s, e);
  }

  lemma StaysMatched(ss: seq<State>, es: seq<Event>, j: nat, k: nat)
    requires Run(ss, es) && j <= k <= |es| && Matched(ss[j])
    requires forall m | j <= m < k :: !Arms(ss[m], es[m]) && !ClearsSnapshot(ss[m], es[m]) && !es[m].Start?
    ensures Matched(ss[k])
  {
    forall m | j <= m < k && Matched(ss[m])
      ensures Matched(ss[m + 1])
    {
      RunStep(ss, es, m);
      RunKeepsSound(ss, es, m);
      MatchedStep(ss[m], es[m]);
    }
    MatchedChain(ss, j, k);
  }

  lemma {:induction false} MatchedChain(ss: seq<State>, j: nat, k: nat)
    requires j <= k < |ss| && Matched(ss[j])
    requires forall m | j <= m < k && Matched(ss[m]) :: Matched(ss[m + 1])
    ensures Matched(ss[k])
  {
    if j < k {
      MatchedChain(ss, j, k - 1);
      assert Matched(ss[k - 1]) ==> Matched(ss[k - 1 + 1]);
    }
  }

  /**
   * Once an arming has landed whose recorded UID is that of the running instance: before the next boot and the next
   * arming, what ends its effect had read the VM before it landed.
   */
  lemma OnlyStaleOperationsEndAnArming(ss: seq<State>, es: seq<Event>, j: nat, k: nat) returns (a: nat)
    requires Run(ss, es) && j <= k < |es| && Matched(ss[j]) && ClearsSnapshot(ss[k], es[k])
    requires forall m | j <= m < k :: !Arms(ss[m], es[m]) && !ClearsSnapshot(ss[m], es[m]) && !es[m].Start?
    ensures a < j && Reads(es[a], es[k].id) && ss[k].drafts[es[k].id].read == ss[a].vm
  {
    a := DraftReadAt(ss, es, k, es[k].id);
    if j <= a {
      StaysMatched(ss, es, j, a);
      RunStep(ss, es, a);
      var d := ss[k].drafts[es[k].id];
      if NullsAll(d) {
        NullsOnlyWhenDeleting(d);
      }
    }
  }

  /** A cleanup that read the VM before an arming landed takes the arming with it. */
  lemma ArmingDuringCleanupIsLost(read: Vm, uid: string, target: string)
    requires CleansUp(read, uid)
    ensures !Effective(Patched(read, CleanedUp(read), Armed(read, uid, target)))
    ensures Handled(Armed(read, uid, target), uid) == Armed(read, uid, target)
  {
  }

  // ----- A label without a snapshot -----

  predicate Stranded(vm: Vm) {
    vm.armed && vm.saved == NoSnapshot
  }

  /**
   * An eject that wipes the annotations of an armed VM strands it: the label stays, and so does the override, unless
   * the eject also writes the disk list, as it had read it, without its own disk.
   */
  lemma WipingEjectStrands(d: Draft, vm: Vm)
    requires WellFormed(d) && d.Unmounting? && NullsAll(d) && Effective(vm)
    ensures Stranded(Landed(d, vm))
    ensures DisksOf(Landed(d, vm)) == if d.media in Names(DisksOf(d.read))
                                      then VirtualMedia.DisksWithout(DisksOf(d.read), d.media) else DisksOf(vm)
  {
    LandedParts(d, vm);
    if d.media in Names(DisksOf(d.read)) {
      EjectedDiskGone(DisksOf(d.read), d.media);
    } else {
      NothingEjected(DisksOf(d.read), d.media);
    }
  }

  lemma StrandedStep(s: State, e: Event)
    requires Sound(s) && Enabled(s, e) && Stranded(s.vm) && !Arms(s, e)
    ensures Stranded(Next(s, e).vm) <==> !LandsCleanup(s, e)
    ensures !e.CleanRead?
  {
    if e.Patch? {
      MadeSaved(s.drafts[e.id]);
      LandedParts(s.drafts[e.id], s.vm);
    }
  }

  ghost predicate LandsCleanup(s: State, e: Event) {
    e.Patch? && e.id in s.drafts && s.drafts[e.id].Cleaning?
  }

  lemma {:induction false} StrandedChain(ss: seq<State>, j: nat, k: nat)
    requires j <= k < |ss| && Stranded(ss[j].vm)
    requires forall m | j <= m < k :: Stranded(ss[m].vm) ==> Stranded(ss[m + 1].vm)
    ensures forall m | j <= m <= k :: Stranded(ss[m].vm)
  {
    if j < k {
      StrandedChain(ss, j, k - 1);
      assert Stranded(ss[k - 1].vm) ==> Stranded(ss[k - 1 + 1].vm);
    }
  }

  /** Until the next arming or a cleanup already under way lands, no handler run helps a stranded VM: it stays so. */
  lemma StrandedUntilArmed(ss: seq<State>, es: seq<Event>, j: nat, k: nat)
    requires Run(ss, es) && j <= k <= |es| && Stranded(ss[j].vm)
    requires forall m | j <= m < k :: !Arms(ss[m], es[m]) && !LandsCleanup(ss[m], es[m])
    ensures Stranded(ss[k].vm) && forall m | j <= m < k :: !es[m].CleanRead?
  {
    forall m | j <= m < k
      ensures Stranded(ss[m].vm) ==> Stranded(ss[m + 1].vm) && !es[m].CleanRead?
    {
      RunStep(ss, es, m);
      RunKeepsSound(ss, es, m);
      if Stranded(ss[m].vm) {
        StrandedStep(ss[m], es[m]);
      }
    }
    StrandedChain(ss, j, k);
    assert forall m | j <= m < k :: Stranded(ss[m].vm);
  }
}
