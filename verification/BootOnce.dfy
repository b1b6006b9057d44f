/**
 * The boot-once protocol: arming saves the boot order and the UID of the running
 * instance in annotations, the watcher restores the order once another instance runs.
 * Operations are uninterrupted here: nothing lands between the read and the patch of one;
 * BootOnceOverlap takes them apart.
 */
module BootOnce {
  import opened Text
  import opened VmSpec
  import opened BootOrder
  import opened BootOnceVm

  /** `vmi`: UID of the running instance, "" when the VM is off; `used`: UIDs seen so far. */
  datatype World = World(vm: Vm, vmi: string, used: set<string>)

  // ----- Runs -----

  /**
   * Whole operations, one after the other; EditDisks and EditVolumes are other clients editing the spec;
   * Idle is a failed operation.
   */
  datatype Event =
    | Arm(target: string, readOk: bool)
    | SetOrder(target: string)
    | Record(options: map<string, string>)
    | Handle(readOk: bool)
    | Start(uid: string)
    | Stop
    | EditDisks(ds: seq<Disk>)
    | EditVolumes(vs: seq<Volume>)
    | Idle

  /** Instance UIDs are never reused; edits keep the disks and may change their orders. */
  ghost predicate Enabled(w: World, e: Event) {
    match e
    case Start(uid) => w.vmi == "" && uid != "" && uid !in w.used
    case EditDisks(ds) => w.vm.template.Some? && SameShape(w.vm.template.value.disks, ds)
    case EditVolumes(_) => w.vm.template.Some?
    case _ => true
  }

  ghost function Next(w: World, e: Event): World
    requires Enabled(w, e)
  {
    match e
    case Arm(target, ok) => w.(vm := Armed(w.vm, Read(w.vmi, ok), target))
    case SetOrder(target) => w.(vm := OverrideOf(w.vm, target))
    case Record(options) => w.(vm := Recorded(w.vm, options))
    case Handle(ok) => w.(vm := Handled(w.vm, Read(w.vmi, ok)))
    case Start(uid) => w.(vmi := uid, used := w.used + {uid})
    case Stop => w.(vmi := "")
    case EditDisks(ds) => w.(vm := WithDisks(w.vm, ds))
    case EditVolumes(vs) => w.(vm := w.vm.(template := Some(w.vm.template.value.(volumes := vs))))
    case Idle => w
  }

  ghost predicate Initial(w: World) {
    && w.vm.saved == NoSnapshot
    && (w.vmi != "" ==> w.vmi in w.used)
    && (w.vm.template.Some? ==> Distinct(DiskNames(w.vm.template.value.disks)))
  }

  ghost predicate Run(ws: seq<World>, es: seq<Event>) {
    && |ws| == |es| + 1
    && Initial(ws[0])
    && forall k | 0 <= k < |es| :: Enabled(ws[k], es[k]) && ws[k + 1] == Next(ws[k], es[k])
  }

  /** Disks as the run started with, up to boot orders. */
  ghost predicate KeepsDisks(a: Vm, b: Vm) {
    && (a.template.Some? <==> b.template.Some?)
    && (a.template.Some? ==> SameShape(a.template.value.disks, b.template.value.disks))
  }

  lemma {:induction false} DisksKept(ws: seq<World>, es: seq<Event>, k: nat)
    requires Run(ws, es) && k <= |es|
    ensures KeepsDisks(ws[0].vm, ws[k].vm)
  {
    if k > 0 {
      DisksKept(ws, es, k - 1);
      assert ws[k] == Next(ws[k - 1], es[k - 1]);
    }
  }

  /** Recapturing after a restore yields the same snapshot. */
  lemma RecaptureIsStable(vm: Vm, base: Vm)
    requires KeepsDisks(base, vm) && vm.saved == CaptureOf(base)
    requires base.template.Some? ==> Distinct(DiskNames(base.template.value.disks))
    ensures CanRestore(vm) && CaptureOf(RestoreOf(vm)) == CaptureOf(base)
  {
    if base.template.Some? {
      var ds := base.template.value.disks;
      forall i, j | 0 <= i < j < |ds|
        ensures ds[i].name != ds[j].name
      {
        assert DiskNames(ds)[i] != DiskNames(ds)[j];
      }
      RestoreUndoesIff(ds, vm.template.value.disks);
    }
  }

  lemma NamesStayDistinct(a: Vm, b: Vm)
    requires KeepsDisks(a, b) && (a.template.Some? ==> Distinct(DiskNames(a.template.value.disks)))
    ensures b.template.Some? ==> Distinct(DiskNames(b.template.value.disks))
  {
    if a.template.Some? {
      assert DiskNames(a.template.value.disks) == DiskNames(b.template.value.disks);
    }
  }

  /**
   * While a snapshot is present it is the boot order just before the first arming since
   * the last cleanup, whatever arming, boot-order changes, edits, boots and failed lookups came after.
   */
  lemma {:induction false} SnapshotIsTheOrderBeforeArming(ws: seq<World>, es: seq<Event>, k: nat) returns (first: nat)
    requires Run(ws, es) && k <= |es| && ws[k].vm.saved != NoSnapshot
    ensures first < k && es[first].Arm? && ws[first].vm.saved == NoSnapshot
    ensures forall m | first < m <= k :: ws[m].vm.saved != NoSnapshot
    ensures ws[k].vm.saved == CaptureOf(ws[first].vm)
  {
    assert k > 0;
    if ws[k - 1].vm.saved == NoSnapshot {
      OnlyArmingSaves(ws, es, k - 1);
      first := k - 1;
    } else {
      first := SnapshotIsTheOrderBeforeArming(ws, es, k - 1);
      SnapshotKeptInRun(ws, es, k - 1, first);
    }
  }

  lemma RunStep(ws: seq<World>, es: seq<Event>, k: nat)
    requires Run(ws, es) && k < |es|
    ensures Enabled(ws[k], es[k]) && ws[k + 1] == Next(ws[k], es[k])
  {
  }

  lemma SnapshotKeptInRun(ws: seq<World>, es: seq<Event>, k: nat, first: nat)
    requires Run(ws, es) && first <= k < |es| && ws[k].vm.saved == CaptureOf(ws[first].vm)
    ensures ws[k + 1].vm.saved in {NoSnapshot, CaptureOf(ws[first].vm)}
  {
    RunStep(ws, es, k);
    DisksKept(ws, es, first);
    DisksKept(ws, es, k);
    NamesStayDistinct(ws[0].vm, ws[first].vm);
    SnapshotKept(ws[k], es[k], ws[first].vm);
  }

  lemma OnlyArmingSaves(ws: seq<World>, es: seq<Event>, k: nat)
    requires Run(ws, es) && k < |es| && ws[k].vm.saved == NoSnapshot && ws[k + 1].vm.saved != NoSnapshot
    ensures es[k].Arm? && ws[k + 1].vm.saved == CaptureOf(ws[k].vm)
  {
    RunStep(ws, es, k);
  }

  lemma SnapshotKept(w: World, e: Event, base: Vm)
    requires Enabled(w, e) && KeepsDisks(base, w.vm) && w.vm.saved == CaptureOf(base)
    requires base.template.Some? ==> Distinct(DiskNames(base.template.value.disks))
    ensures Next(w, e).vm.saved in {NoSnapshot, CaptureOf(base)}
  {
    RecaptureIsStable(w.vm, base);
    match e
    case Arm(_, _) =>
    case Handle(_) =>
    case _ =>
  }

  /** The recorded UID is what the arming that recorded it read, and later armings read the same. */
  lemma {:induction false} RecordedUidOrigin(ws: seq<World>, es: seq<Event>, k: nat) returns (j: nat)
    requires Run(ws, es) && k <= |es| && ws[k].vm.saved != NoSnapshot
    ensures j < k && es[j].Arm?
    ensures forall m | j < m <= k ::
              ws[m].vm.saved != NoSnapshot && RecordedUid(ws[m].vm) == Read(ws[j].vmi, es[j].readOk)
  {
    assert k > 0;
    var w, e := ws[k - 1], es[k - 1];
    assert ws[k] == Next(w, e);
    if w.vm.saved == NoSnapshot || (e.Arm? && !SameInstance(w.vm, Read(w.vmi, e.readOk))) {
      j := k - 1;
    } else {
      j := RecordedUidOrigin(ws, es, k - 1);
    }
  }

  /** An instance running at `k` but not at `j` was started in between. */
  lemma {:induction false} RunningMeansStarted(ws: seq<World>, es: seq<Event>, j: nat, k: nat) returns (m: nat)
    requires Run(ws, es) && j <= k <= |es| && ws[k].vmi != "" && ws[k].vmi != ws[j].vmi
    ensures j <= m < k && es[m] == Start(ws[k].vmi)
  {
    var w, e := ws[k - 1], es[k - 1];
    assert ws[k] == Next(w, e);
    if e.Start? {
      m := k - 1;
    } else {
      m := RunningMeansStarted(ws, es, j, k - 1);
    }
  }

  /**
   * A cleanup happens only while an instance runs that was started after the UID was recorded
   * (given that the recording lookup did not fail); it brings back the order from before the first
   * arming and leaves no boot-once state, so a second handler run changes nothing.
   */
  lemma CleanupFollowsANewBoot(ws: seq<World>, es: seq<Event>, k: nat)
      returns (first: nat, recorded: nat, boot: nat)
    requires Run(ws, es) && k < |es| && es[k].Handle?
    requires ws[k].vm.saved != NoSnapshot && ws[k + 1].vm.saved == NoSnapshot
    ensures ws[k].vmi != "" && es[k].readOk
    ensures recorded < k && es[recorded].Arm?
    ensures forall m | recorded < m <= k :: ws[m].vm.saved != NoSnapshot
    ensures es[recorded].readOk ==> recorded < boot < k && es[boot] == Start(ws[k].vmi)
    ensures first < k && es[first].Arm? && ws[first].vm.saved == NoSnapshot
    ensures forall m | first < m <= k :: ws[m].vm.saved != NoSnapshot
    ensures CaptureOf(ws[k + 1].vm) == CaptureOf(ws[first].vm)
    ensures !ws[k + 1].vm.armed && ws[k + 1].vm.savedUid == None && ws[k + 1].vm.notes.Keys !! OVERRIDE_KEYS
    ensures forall ok :: Next(ws[k + 1], Handle(ok)) == ws[k + 1]
  {
    assert ws[k + 1] == Next(ws[k], es[k]);
    recorded := RecordedUidOrigin(ws, es, k);
    assert RecordedUid(ws[k].vm) == Read(ws[recorded].vmi, es[recorded].readOk);
    boot := 0;
    if es[recorded].readOk {
      assert ws[recorded + 1] == Next(ws[recorded], es[recorded]);
      boot := RunningMeansStarted(ws, es, recorded + 1, k);
    }
    first := SnapshotIsTheOrderBeforeArming(ws, es, k);
    DisksKept(ws, es, first);
    DisksKept(ws, es, k);
    NamesStayDistinct(ws[0].vm, ws[first].vm);
    RecaptureIsStable(ws[k].vm, ws[first].vm);
  }

  /**
   * An order set while a snapshot is present leaves label and snapshot alone; the next cleanup undoes it, so that it
   * lasts exactly if it is the saved one on every disk.
   */
  lemma OrderSetWhileArmedLastsIff(ws: seq<World>, es: seq<Event>, j: nat, k: nat)
    requires Run(ws, es) && j < k < |es| && es[j].SetOrder? && es[k].Handle?
    requires (forall m | j <= m <= k :: ws[m].vm.saved != NoSnapshot) && ws[k + 1].vm.saved == NoSnapshot
    ensures ws[j + 1].vm == OverrideOf(ws[j].vm, es[j].target)
    ensures ws[j + 1].vm.saved == ws[j].vm.saved && ws[j + 1].vm.armed == ws[j].vm.armed
    ensures CaptureOf(ws[k + 1].vm) == CaptureOf(ws[j + 1].vm) <==> ws[j].vm.saved == CaptureOf(ws[j + 1].vm)
  {
    RunStep(ws, es, j);
    var first, _, _ := CleanupFollowsANewBoot(ws, es, k);
    var same := SnapshotIsTheOrderBeforeArming(ws, es, j);
    assert same == first by {
      assert !(first < same) && !(same < first);
    }
  }

  /** Whenever an armed VM runs another instance than the recorded one, the next handler run cleans up. */
  lemma HandlerCleansUpAfterBoot(ws: seq<World>, es: seq<Event>, k: nat)
    requires Run(ws, es) && k <= |es| && ws[k].vm.armed && ws[k].vm.saved != NoSnapshot
    requires ws[k].vmi != "" && ws[k].vmi != RecordedUid(ws[k].vm)
    ensures Next(ws[k], Handle(true)).vm.saved == NoSnapshot && !Next(ws[k], Handle(true)).vm.armed
  {
    var first := SnapshotIsTheOrderBeforeArming(ws, es, k);
  }

  /**
   * An arming is not lost before the next boot, also one that arrives after a reboot the
   * watcher has not handled yet; and as long as only the watcher runs and the VM stops, nothing changes.
   */
  lemma {:induction false} ArmingLastsUntilABoot(ws: seq<World>, es: seq<Event>, j: nat, k: nat)
    requires Run(ws, es) && j < k <= |es| && es[j].Arm?
    requires forall m | j <= m < k :: !es[m].Start? && (es[m].Arm? ==> es[m].readOk)
    ensures InEffect(ws[k])
    ensures (forall m | j < m < k :: es[m].Stop? || es[m].Handle? || es[m].Idle?) ==> ws[k].vm == ws[j + 1].vm
  {
    if k > j + 1 {
      ArmingLastsUntilABoot(ws, es, j, k - 1);
      ArmedStepInRun(ws, es, k - 1);
    } else {
      JustArmed(ws, es, j);
    }
  }

  ghost predicate InEffect(w: World) {
    w.vm.armed && w.vm.saved != NoSnapshot && (w.vmi == "" || w.vmi == RecordedUid(w.vm))
  }

  lemma JustArmed(ws: seq<World>, es: seq<Event>, j: nat)
    requires Run(ws, es) && j < |es| && es[j].Arm? && es[j].readOk
    ensures InEffect(ws[j + 1])
  {
    RunStep(ws, es, j);
  }

  lemma ArmedStepInRun(ws: seq<World>, es: seq<Event>, k: nat)
    requires Run(ws, es) && k < |es| && InEffect(ws[k]) && !es[k].Start? && (es[k].Arm? ==> es[k].readOk)
    ensures InEffect(ws[k + 1]) && (es[k].Stop? || es[k].Handle? || es[k].Idle? ==> ws[k + 1].vm == ws[k].vm)
  {
    RunStep(ws, es, k);
    ArmedStep(ws[k], es[k]);
  }

  lemma ArmedStep(w: World, e: Event)
    requires Enabled(w, e) && !e.Start? && (e.Arm? ==> e.readOk)
    requires InEffect(w)
    ensures InEffect(Next(w, e)) && (e.Stop? || e.Handle? || e.Idle? ==> Next(w, e).vm == w.vm)
  {
  }

  /**
   * The override survives a handler run on the same instance exactly when the arming lookup worked or the VM was off.
   */
  lemma SameInstanceKeepsOverrideIff(vm: Vm, vmi: string, target: string, readOk: bool)
    requires vm.saved != Corrupt
    ensures var now := Armed(vm, Read(vmi, readOk), target);
            Handled(now, vmi) == now <==> readOk || vmi == ""
  {
    var now := Armed(vm, Read(vmi, readOk), target);
    assert now.armed && now.saved.Snapshot?;
  }

  lemma {:induction false} RankInPrefix(ds: seq<Disk>, added: Disk, vs: seq<Volume>, kind: Kind, i: nat)
    requires i <= |ds|
    ensures Rank(ds + [added], vs, kind, i) == Rank(ds, vs, kind, i)
  {
    if i > 0 {
      RankInPrefix(ds, added, vs, kind, i - 1);
    }
  }

  /**
   * A disk added after the snapshot is not covered by the restore: it comes back exactly if it had the place that
   * the override gives it behind the disks of its kind.
   */
  lemma AddedDiskKeepsOverride(ds: seq<Disk>, added: Disk, vs: seq<Volume>, target: string)
    requires Distinct(DiskNames(ds + [added]))
    ensures Restored(Overridden(ds + [added], vs, target), Captured(ds)) == ds + [added] <==>
            added.bootOrder == match KindOf(vs, added.name)
                               case Cd => if target == CD_TARGET then Some(1 + Count(ds, vs, Cd)) else None
                               case Hdd =>
                                 if target == HDD_TARGET then Some(1 + Count(ds, vs, Hdd))
                                 else if target == CD_TARGET then Some(CdVolumes(vs) + 1 + Count(ds, vs, Hdd))
                                 else None
                               case Unbootable => None
  {
    RankInPrefix(ds, added, vs, Cd, |ds|);
    RankInPrefix(ds, added, vs, Hdd, |ds|);
    RestoredWithAdded(ds, added, vs, target);
  }

  lemma RestoredWithAdded(ds: seq<Disk>, added: Disk, vs: seq<Volume>, target: string)
    requires Distinct(DiskNames(ds + [added]))
    ensures Restored(Overridden(ds + [added], vs, target), Captured(ds)) ==
            ds + [added.(bootOrder := OrderAt(ds + [added], vs, target, |ds|))]
  {
    var all := ds + [added];
    var out := Restored(Overridden(all, vs, target), Captured(ds));
    assert DiskNames(all)[|ds|] == added.name;
    forall i | 0 <= i < |ds|
      ensures out[i] == ds[i]
    {
      assert DiskNames(all)[i] == ds[i].name;
      var last := SavedForCaptured(ds, ds[i].name);
      assert last != -1 && DiskNames(all)[last] == ds[last].name;
    }
    var last := SavedForCaptured(ds, added.name);
    assert forall i | 0 <= i < |ds| :: ds[i].name == DiskNames(all)[i];
    assert last == -1;
    assert out[|ds|] == added.(bootOrder := OrderAt(all, vs, target, |ds|));
  }

  /** So the CD-ROM of an insert that lands in an armed VM stays bootable after the cleanup. */
  lemma InsertedCdRomStaysBootable(ds: seq<Disk>, vs: seq<Volume>)
    requires Distinct(DiskNames(ds)) && forall d | d in ds :: d.name != "cdrom0"
    requires exists v :: v in vs && v.name == "cdrom0"
    ensures var all := ds + [Disk("cdrom0", CdRom, None)];
            Restored(Overridden(all, vs, CD_TARGET), Captured(ds)) != all
  {
    var all := ds + [Disk("cdrom0", CdRom, None)];
    forall i, j | 0 <= i < j < |all|
      ensures DiskNames(all)[i] != DiskNames(all)[j]
    {
      if j < |ds| {
        assert DiskNames(ds)[i] != DiskNames(ds)[j];
      }
    }
    AddedDiskKeepsOverride(ds, Disk("cdrom0", CdRom, None), vs, CD_TARGET);
  }
}
