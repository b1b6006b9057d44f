/** Runs in which overlapping operations lose the configured boot order or an arming, on any VM. */
module BootOnceLosses {
  import opened Text
  import opened VmSpec
  import opened BootOrder
  import opened BootOnceVm
  import opened BootOnceOverlap
  import VirtualMedia
  import opened BootOnceLife

  lemma FirstArming(vm: Vm, uid: string, target: string)
    requires vm.saved == NoSnapshot
    ensures var armed := Armed(vm, uid, target);
            && armed.armed && armed.saved == CaptureOf(vm) && armed.savedUid == Some(uid)
            && DisksOf(armed) == Overridden(DisksOf(vm), VolumesOf(vm), target)
            && VolumesOf(armed) == VolumesOf(vm) && (armed.template.Some? <==> vm.template.Some?)
  {
  }

  /** Disks of one name share their order, as they do when names are unique. */
  lemma CleanedArming(vm: Vm, uid: string, target: string)
    requires vm.saved == NoSnapshot && OrdersByName(DisksOf(vm))
    ensures var armed := Armed(vm, uid, target);
            && CanRestore(armed) && DisksOf(RestoreOf(armed)) == DisksOf(vm)
            && DisksOf(CleanedUp(armed)) == DisksOf(vm) && VolumesOf(CleanedUp(armed)) == VolumesOf(vm)
            && CleanedUp(armed).saved == NoSnapshot && !CleanedUp(armed).armed
  {
    FirstArming(vm, uid, target);
    RestoreUndoesOverride(DisksOf(vm), VolumesOf(vm), target);
  }

  function ReadEvent(id: nat, d: Draft): Event
    requires !d.Cleaning?
  {
    match d
    case Arming(_, uid, target) => ArmRead(id, target, uid)
    case Ordering(_, target) => OrderRead(id, target)
    case Recording(_, options) => RecordRead(id, options)
    case Mounting(_, pvc, url) => MountRead(id, pvc, url)
    case Unmounting(_, media) => UnmountRead(id, media)
  }

  lemma ReadStep(s: State, id: nat, d: Draft)
    requires id !in s.drafts && !d.Cleaning? && WellFormed(d) && d.read == s.vm
    ensures Enabled(s, ReadEvent(id, d)) && Next(s, ReadEvent(id, d)) == s.(drafts := s.drafts[id := d])
  {
  }

  lemma Extended(ss: seq<State>, es: seq<Event>, e: Event, t: State) returns (ss': seq<State>, es': seq<Event>)
    requires Run(ss, es) && Enabled(ss[|es|], e) && t == Next(ss[|es|], e)
    ensures Run(ss', es') && |es'| == |es| + 1 && ss'[|es'|] == t && ss'[|es|] == ss[|es|] && es'[|es|] == e
  {
    ss', es' := ss + [t], es + [e];
  }

  /** A run on a VM that is armed for t1 and then rebooted. */
  lemma ArmAndReboot(vm: Vm, t1: string) returns (ss: seq<State>, es: seq<Event>)
    requires vm.saved == NoSnapshot
    ensures Run(ss, es) && |es| == 4
    ensures ss[4] == State(Armed(vm, "a", t1), "b", {"a", "b"}, OrdersOf(DisksOf(vm)), map[])
  {
    var d := Arming(vm, "a", t1);
    var s0 := State(vm, "a", {"a"}, OrdersOf(DisksOf(vm)), map[]);
    var s1 := s0.(drafts := map[0 := d]);
    var s2 := s0.(vm := Armed(vm, "a", t1));
    var s3 := s2.(vmi := "");
    var s4 := s2.(vmi := "b", used := {"a", "b"});
    ss, es := [s0], [];
    ReadStep(s0, 0, d);
    ss, es := Extended(ss, es, ReadEvent(0, d), s1);
    PatchStep(s1, 0);
    UninterruptedIsAtomic(d);
    assert s1.drafts - {0} == s2.drafts;
    ss, es := Extended(ss, es, Patch(0), s2);
    ss, es := Extended(ss, es, Event.Stop, s3);
    assert s3.used + {"b"} == s4.used;
    ss, es := Extended(ss, es, Event.Start("b"), s4);
  }

  lemma CleanStep(s: State, id: nat)
    requires id !in s.drafts && CleansUp(s.vm, s.vmi)
    ensures Enabled(s, CleanRead(id, true))
        && Next(s, CleanRead(id, true)) == s.(drafts := s.drafts[id := Cleaning(s.vm)])
  {
  }

  lemma ArmedCleansUp(vm: Vm, t1: string)
    requires vm.saved == NoSnapshot
    ensures CleansUp(Armed(vm, "a", t1), "b") && WellFormed(Cleaning(Armed(vm, "a", t1)))
  {
    FirstArming(vm, "a", t1);
  }

  /** Then an operation `d` reads the armed VM, and the watcher's cleanup reads it and lands. */
  lemma ReadAndCleanUp(vm: Vm, t1: string, d: Draft) returns (ss: seq<State>, es: seq<Event>)
    requires vm.saved == NoSnapshot
    requires WellFormed(d) && !d.Cleaning? && d.read == Armed(vm, "a", t1)
    ensures WellFormed(Cleaning(Armed(vm, "a", t1))) && Run(ss, es) && |es| == 7
    ensures ss[7] == State(CleanedUp(Armed(vm, "a", t1)), "b", {"a", "b"}, OrdersOf(DisksOf(vm)), map[1 := d])
  {
    ArmedCleansUp(vm, t1);
    var armed := Armed(vm, "a", t1);
    ss, es := ArmAndReboot(vm, t1);
    var s4 := ss[4];
    var s5 := s4.(drafts := map[1 := d]);
    var s6 := s4.(drafts := map[1 := d, 2 := Cleaning(armed)]);
    var s7 := s5.(vm := CleanedUp(armed));
    ReadStep(s4, 1, d);
    ss, es := Extended(ss, es, ReadEvent(1, d), s5);
    CleanStep(s5, 2);
    ss, es := Extended(ss, es, CleanRead(2, true), s6);
    PatchStep(s6, 2);
    UninterruptedIsAtomic(Cleaning(armed));
    assert s6.drafts - {2} == s7.drafts;
    ss, es := Extended(ss, es, Patch(2), s7);
  }

  /**
   * Arm, reboot, and let any operation `d` read the armed VM just before the watcher's cleanup reads and patches it:
   * the run in which the patch of `d` comes last.
   */
  lemma OverlapWithCleanup(vm: Vm, t1: string, d: Draft) returns (ss: seq<State>, es: seq<Event>)
    requires vm.saved == NoSnapshot
    requires WellFormed(d) && !d.Cleaning? && d.read == Armed(vm, "a", t1)
    ensures WellFormed(Cleaning(Armed(vm, "a", t1))) && Run(ss, es) && |es| == 8
    ensures ss[8].vm == Landed(d, CleanedUp(Armed(vm, "a", t1))) && ss[8].drafts == map[]
    ensures ss[8].base == BaseAfter(OrdersOf(DisksOf(vm)), d, CleanedUp(Armed(vm, "a", t1)))
  {
    ss, es := ReadAndCleanUp(vm, t1, d);
    var s7 := ss[7];
    PatchStep(s7, 1);
    assert s7.drafts - {1} == map[];
    ss, es := Extended(ss, es, Patch(1), Next(s7, Patch(1)));
  }

  lemma SameOrdersIff(a: Vm, ds: seq<Disk>)
    requires Names(DisksOf(a)) == Names(ds)
    ensures Holds(a.(saved := NoSnapshot), OrdersOf(ds)) <==> OrdersOf(DisksOf(a)) == OrdersOf(ds)
  {
    var vm := a.(saved := NoSnapshot);
    forall n | n in Names(ds)
      ensures SavedFor(CaptureOf(vm).orders, n) == Some(OrdersOf(ds)[n]) <==> OrdersOf(DisksOf(a))[n] == OrdersOf(ds)[n]
    {
      FoundIff(DisksOf(a), n);
    }
  }

  /**
   * Arming again while the cleanup is under way: label and snapshot are gone, and the order is lost exactly if the
   * second target's orders are neither the configured ones nor the first target's.
   */
  lemma RearmDuringCleanup(vm: Vm, t1: string, t2: string) returns (ss: seq<State>, es: seq<Event>)
    requires vm.saved == NoSnapshot && OrdersByName(DisksOf(vm))
    ensures Run(ss, es) && |es| == 8 && ss[8].vm.saved == NoSnapshot && !ss[8].vm.armed
    ensures var ds, vs := DisksOf(vm), VolumesOf(vm);
            Kept(ss[8]) <==> Overridden(ds, vs, t2) == Overridden(ds, vs, t1)
                             || OrdersOf(Overridden(ds, vs, t2)) == OrdersOf(ds)
  {
    var armed := Armed(vm, "a", t1);
    var d := Arming(armed, "b", t2);
    FirstArming(vm, "a", t1);
    CleanedArming(vm, "a", t1);
    Rearming(vm, t1, t2);
    ss, es := OverlapWithCleanup(vm, t1, d);
    LandedParts(d, CleanedUp(armed));
    var ds, vs := DisksOf(vm), VolumesOf(vm);
    assert DisksOf(ss[8].vm) == if Overridden(ds, vs, t2) != Overridden(ds, vs, t1) then Overridden(ds, vs, t2) else ds;
    SameNames(ds, Overridden(ds, vs, t2));
    SameOrdersIff(ss[8].vm, ds);
    assert ss[8].vm.(saved := NoSnapshot) == ss[8].vm;
  }

  /** Armed again for a new instance, the VM keeps the old snapshot and gets the new target's orders. */
  lemma Rearming(vm: Vm, t1: string, t2: string)
    requires vm.saved == NoSnapshot && OrdersByName(DisksOf(vm))
    ensures var armed := Armed(vm, "a", t1);
            var again := Armed(armed, "b", t2);
            && again.armed && again.saved == armed.saved
            && DisksOf(again) == Overridden(DisksOf(vm), VolumesOf(vm), t2)
  {
    FirstArming(vm, "a", t1);
    CleanedArming(vm, "a", t1);
  }

  lemma LeftAfterEject(vm: Vm, over: seq<Disk>, media: string, base: Orders)
    requires vm.saved == NoSnapshot && DisksOf(vm) == VirtualMedia.DisksWithout(over, media) && base.Keys == Names(over)
    ensures Holds(vm, base - {media}) <==> OrdersOf(over) - {media} == base - {media}
  {
    forall n | n in base && n != media
      ensures SavedFor(CaptureOf(vm).orders, n) == Some(OrdersOf(over)[n]) && n in Names(DisksOf(vm))
    {
      WithoutOthers(over, media, n);
      FoundIff(over, n);
      FoundIff(DisksOf(vm), n);
    }
    var overridden, configured := OrdersOf(over) - {media}, base - {media};
    assert overridden.Keys == configured.Keys;
    if Holds(vm, configured) {
      forall n | n in configured
        ensures overridden[n] == configured[n]
      {
        assert SavedFor(CaptureOf(vm).orders, n) == Some(configured[n]);
      }
    }
  }

  /**
   * Ejecting while the cleanup is under way: label and snapshot are gone, and the order is lost exactly if the
   * override moved some other disk.
   */
  lemma EjectDuringCleanup(vm: Vm, t1: string, media: string) returns (ss: seq<State>, es: seq<Event>)
    requires vm.saved == NoSnapshot && OrdersByName(DisksOf(vm)) && vm.template.Some? && media in Names(DisksOf(vm))
    ensures Run(ss, es) && |es| == 8 && ss[8].vm.saved == NoSnapshot && !ss[8].vm.armed
    ensures var configured, overridden := OrdersOf(DisksOf(vm)), OrdersOf(Overridden(DisksOf(vm), VolumesOf(vm), t1));
            Kept(ss[8]) <==> overridden - {media} == configured - {media}
  {
    var armed := Armed(vm, "a", t1);
    var d := Unmounting(armed, media);
    FirstArming(vm, "a", t1);
    CleanedArming(vm, "a", t1);
    ss, es := OverlapWithCleanup(vm, t1, d);
    SameNames(DisksOf(vm), DisksOf(armed));
    EjectedDiskGone(DisksOf(armed), media);
    EjectLands(d, CleanedUp(armed));
    LeftAfterEject(ss[8].vm, DisksOf(armed), media, OrdersOf(DisksOf(vm)));
  }

  lemma EjectLands(d: Draft, now: Vm)
    requires WellFormed(d) && d.Unmounting? && d.read.saved != NoSnapshot && now.saved == NoSnapshot
    requires |DisksOf(Made(d))| < |DisksOf(d.read)|
    ensures DisksOf(Landed(d, now)) == VirtualMedia.DisksWithout(DisksOf(d.read), d.media)
    ensures Landed(d, now).saved == NoSnapshot && Landed(d, now).armed == now.armed
    ensures forall base :: BaseAfter(base, d, now) == base - {d.media}
  {
    LandedParts(d, now);
  }

  lemma LeftAfterInsert(vm: Vm, over: seq<Disk>, base: Orders)
    requires vm.saved == NoSnapshot && DisksOf(vm) == over + [Disk(CDROM, CdRom, None)]
    requires base.Keys == Names(over) && CDROM !in base
    ensures Holds(vm, base[CDROM := None]) <==> OrdersOf(over) == base
  {
    forall n
      ensures SavedFor(CaptureOf(vm).orders, n) == if n == CDROM then Some(None) else SavedFor(Captured(over), n)
      ensures n in Names(over) <==> SavedFor(Captured(over), n).Some?
    {
      AppendedOrder(over, Disk(CDROM, CdRom, None), n);
      FoundIff(over, n);
    }
    GivesMeansHasIf(vm, base[CDROM := None]);
    if Holds(vm, base[CDROM := None]) {
      forall n | n in base
        ensures OrdersOf(over)[n] == base[n]
      {
        assert SavedFor(CaptureOf(vm).orders, n) == Some(base[CDROM := None][n]);
      }
    }
  }

  lemma InsertLands(d: Draft, now: Vm)
    requires WellFormed(d) && d.Mounting? && CDROM !in Names(DisksOf(d.read)) && now.saved == NoSnapshot
    ensures DisksOf(Landed(d, now)) == DisksOf(d.read) + [Disk(CDROM, CdRom, None)]
    ensures Landed(d, now).saved == NoSnapshot && Landed(d, now).armed == now.armed
    ensures forall base :: BaseAfter(base, d, now) == base[CDROM := None]
  {
    LandedParts(d, now);
    CdRomAppended(d.read, d.pvc, d.url);
    MountAnnotates(d.read, d.pvc, d.url);
  }

  /**
   * Inserting into a VM without the CD-ROM while the cleanup is under way: label and snapshot are gone, and the order
   * is lost exactly if the override moved a disk.
   */
  lemma InsertDuringCleanup(vm: Vm, t1: string, pvc: string, url: string) returns (ss: seq<State>, es: seq<Event>)
    requires vm.saved == NoSnapshot && OrdersByName(DisksOf(vm)) && CDROM !in Names(DisksOf(vm))
    ensures Run(ss, es) && |es| == 8 && ss[8].vm.saved == NoSnapshot && !ss[8].vm.armed
    ensures Kept(ss[8]) <==> OrdersOf(Overridden(DisksOf(vm), VolumesOf(vm), t1)) == OrdersOf(DisksOf(vm))
  {
    var armed := Armed(vm, "a", t1);
    var d := Mounting(armed, pvc, url);
    FirstArming(vm, "a", t1);
    CleanedArming(vm, "a", t1);
    ss, es := OverlapWithCleanup(vm, t1, d);
    SameNames(DisksOf(vm), DisksOf(armed));
    InsertLands(d, CleanedUp(armed));
    LeftAfterInsert(ss[8].vm, DisksOf(armed), OrdersOf(DisksOf(vm)));
  }

  /** A VM with a disk and a CD-ROM, without any order. */
  function SmallVm(): Vm {
    Vm(Some(Template([Disk("root", DiskTarget, None), Disk("cdrom0", CdRom, None)],
                     [Volume("root", DataVolume), Volume("cdrom0", Claim("iso"))])),
       false, NoSnapshot, None, map[])
  }

  lemma SmallVmOverridden()
    ensures var vm := SmallVm();
            Overridden(DisksOf(vm), VolumesOf(vm), CD_TARGET)[0].bootOrder.Some?
  {
    var vs := VolumesOf(SmallVm());
    assert vs[0] in vs;
    assert IsHddVolume(vs[0]);
    assert !exists v :: v in vs && v.name == "root" && IsCdVolume(v);
  }

  /** There are VMs and targets for which the order is lost. */
  lemma SomeRunLosesTheOrder() returns (ss: seq<State>, es: seq<Event>)
    ensures Run(ss, es) && !Kept(ss[|es|])
  {
    var vm := SmallVm();
    var ds := DisksOf(vm);
    var over := Overridden(ds, VolumesOf(vm), CD_TARGET);
    assert ds[1] in ds;
    ss, es := EjectDuringCleanup(vm, CD_TARGET, "cdrom0");
    SmallVmOverridden();
    LastOfName(over, 0);
    LastOfName(ds, 0);
    assert (OrdersOf(over) - {"cdrom0"})["root"] != (OrdersOf(ds) - {"cdrom0"})["root"];
  }

  lemma LastOfName(ds: seq<Disk>, i: nat)
    requires i < |ds| && forall j | i < j < |ds| :: ds[j].name != ds[i].name
    ensures ds[i].name in Names(ds) && OrdersOf(ds)[ds[i].name] == ds[i].bootOrder
  {
    var last := SavedForCaptured(ds, ds[i].name);
    assert ds[i] in ds;
  }

  // ----- Two armings -----

  /** A run on a VM that is off: one arming reads it, it boots, and another arming reads it. */
  lemma TwoArmingsRead(vm: Vm, t1: string, t2: string) returns (ss: seq<State>, es: seq<Event>)
    requires vm.saved == NoSnapshot
    ensures Run(ss, es) && |es| == 3
    ensures ss[3] == State(vm, "b", {"b"}, OrdersOf(DisksOf(vm)),
        map[1 := Arming(vm, "", t1), 2 := Arming(vm, "b", t2)])
  {
    var late, early := Arming(vm, "", t1), Arming(vm, "b", t2);
    var s0 := State(vm, "", {}, OrdersOf(DisksOf(vm)), map[]);
    var s1 := s0.(drafts := map[1 := late]);
    var s2 := s1.(vmi := "b", used := {"b"});
    ss, es := [s0], [];
    ReadStep(s0, 1, late);
    ss, es := Extended(ss, es, ReadEvent(1, late), s1);
    assert s1.used + {"b"} == s2.used;
    ss, es := Extended(ss, es, Event.Start("b"), s2);
    ReadStep(s2, 2, early);
    ss, es := Extended(ss, es, ReadEvent(2, early), s2.(drafts := map[1 := late, 2 := early]));
  }

  /** An arming that read the VM while it was off lands after one that read it running: the handler then ends both. */
  lemma LateArmingEndsBoth(vm: Vm, t1: string, t2: string) returns (ss: seq<State>, es: seq<Event>)
    requires vm.saved == NoSnapshot && vm.savedUid == None && !vm.armed
    ensures Run(ss, es) && |es| == 5 && es[4] == Patch(1)
    ensures Matched(ss[4]) && ss[4].vmi == ss[5].vmi == "b" && CleansUp(ss[5].vm, "b")
  {
    ss, es := TwoArmingsRead(vm, t1, t2);
    var s3 := ss[3];
    var late, early := s3.drafts[1], s3.drafts[2];
    PatchStep(s3, 2);
    var s4 := Next(s3, Patch(2));
    ss, es := Extended(ss, es, Patch(2), s4);
    assert s4.drafts == map[1 := late] && s4.vmi == "b" && s4.vm == Landed(early, vm);
    PatchStep(s4, 1);
    var s5 := Next(s4, Patch(1));
    ss, es := Extended(ss, es, Patch(1), s5);
    FirstLanding(vm, "b", t2, vm);
    FirstLanding(vm, "", t1, s4.vm);
  }

  lemma FirstLanding(vm: Vm, uid: string, target: string, now: Vm)
    requires vm.saved == NoSnapshot && vm.savedUid == None && !vm.armed
    ensures var landed := Landed(Arming(vm, uid, target), now);
            landed.armed && landed.saved.Snapshot? && RecordedUid(landed) == uid
  {
    FirstArming(vm, uid, target);
  }
}
