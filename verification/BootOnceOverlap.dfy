/**
 * The boot-once protocol with its API calls apart: an operation reads the VM, prepares a modified copy, and later
 * sends the difference of the two as a patch, which meets whatever the VM has become by then. Inserts and ejects
 * take part, since they write the disk list that carries the boot orders.
 */
module BootOnceOverlap {
  import opened Text
  import opened VmSpec
  import opened BootOrder
  import opened BootOnceVm
  import VirtualMedia

  const CDROM := VirtualMedia.CDROM

  function UrlKey(media: string): string {
    "virtual-media.redfish/" + media
  }

  /** An operation between its read and its patch. */
  datatype Draft =
    | Arming(read: Vm, uid: string, target: string)
    | Cleaning(read: Vm)
    | Ordering(read: Vm, target: string)
    | Recording(read: Vm, options: map<string, string>)
    | Mounting(read: Vm, pvc: string, url: string)
    | Unmounting(read: Vm, media: string)

  /** The configured boot order: a disk's place by its name. */
  type Orders = map<string, Option<nat>>

  /**
   * `base` is the configured order: that of the disks when it was last set without boot-once state present, with a
   * disk inserted since, without a snapshot present, and without the disks ejected since.
   */
  datatype State = State(vm: Vm, vmi: string, used: set<string>, base: Orders, drafts: map<nat, Draft>)

  /** `uid` is whatever the instance lookup of an arming gave: a failed lookup and one that is out of date included. */
  datatype Event =
    | ArmRead(id: nat, target: string, uid: string)
    | CleanRead(id: nat, readOk: bool)
    | OrderRead(id: nat, target: string)
    | RecordRead(id: nat, options: map<string, string>)
    | MountRead(id: nat, pvc: string, url: string)
    | UnmountRead(id: nat, media: string)
    | Patch(id: nat)
    | Drop(id: nat)
    | Start(uid: string)
    | Stop
    | EditDisks(ds: seq<Disk>)
    | EditVolumes(vs: seq<Volume>)

  /** The update loop of an insert. */
  function Mounted(vm: Vm, pvc: string, url: string): Vm {
    vm.(template := Some(Template(VirtualMedia.WithCdRom(DisksOf(vm)),
        VirtualMedia.WithClaim(VolumesOf(vm), CDROM, pvc))),
        notes := vm.notes[UrlKey(CDROM) := url])
  }

  /** The spec edit of an eject. */
  function Unmounted(vm: Vm, media: string): Vm
    requires vm.template.Some?
  {
    vm.(template := Some(Template(VirtualMedia.DisksWithout(DisksOf(vm), media),
                                  VirtualMedia.VolumesWithout(VolumesOf(vm), media))),
        notes := vm.notes - {UrlKey(media)})
  }

  predicate WellFormed(d: Draft) {
    && d.read.saved != Corrupt
    && (d.Cleaning? ==> d.read.saved.Snapshot? && d.read.armed)
    && (d.Unmounting? ==> d.read.template.Some?)
  }

  function Made(d: Draft): Vm
    requires WellFormed(d)
  {
    match d
    case Arming(read, uid, target) => Armed(read, uid, target)
    case Cleaning(read) => CleanedUp(read)
    case Ordering(read, target) => OverrideOf(read, target)
    case Recording(read, options) => Recorded(read, options)
    case Mounting(read, pvc, url) => Mounted(read, pvc, url)
    case Unmounting(read, media) => Unmounted(read, media)
  }

  function Landed(d: Draft, now: Vm): Vm
    requires WellFormed(d)
  {
    Patched(d.read, Made(d), now)
  }

  predicate WritesDisks(d: Draft)
    requires WellFormed(d)
  {
    DisksWritten(d.read, Made(d))
  }

  predicate NullsAll(d: Draft)
    requires WellFormed(d)
  {
    NullsAnnotations(d.read, Made(d))
  }

  // ----- Orders by name -----

  function Names(ds: seq<Disk>): set<string> {
    set d | d in ds :: d.name
  }

  /** The places of the disks; the last disk of a name decides. */
  function OrdersOf(ds: seq<Disk>): Orders {
    map n | n in Names(ds) :: var o := SavedFor(Captured(ds), n); if o.Some? then o.value else None
  }

  predicate Gives(saved: SavedOrder, base: Orders) {
    saved.Snapshot? && forall n | n in base :: SavedFor(saved.orders, n) == Some(base[n])
  }

  predicate Has(vm: Vm, base: Orders) {
    base.Keys <= Names(DisksOf(vm))
  }

  /** Every configured disk is there, and its configured place is in the snapshot, or, without one, on the disk. */
  predicate Holds(vm: Vm, base: Orders) {
    Has(vm, base) && Gives(if vm.saved == NoSnapshot then CaptureOf(vm) else vm.saved, base)
  }

  lemma {:induction false} FoundIff(ds: seq<Disk>, name: string)
    ensures SavedFor(Captured(ds), name).Some? <==> name in Names(ds)
  {
    var last := SavedForCaptured(ds, name);
    if last != -1 {
      assert ds[last] in ds;
    }
  }

  lemma GivesMeansHas(vm: Vm, base: Orders)
    requires Gives(CaptureOf(vm), base)
    ensures Has(vm, base)
  {
    forall n | n in base
      ensures n in Names(DisksOf(vm))
    {
      FoundIff(DisksOf(vm), n);
    }
  }

  lemma OwnOrdersGiven(vm: Vm, base: Orders)
    requires Has(vm, base)
    ensures Gives(CaptureOf(vm), base + OrdersOf(DisksOf(vm)))
  {
    forall n | n in base + OrdersOf(DisksOf(vm))
      ensures SavedFor(CaptureOf(vm).orders, n) == Some((base + OrdersOf(DisksOf(vm)))[n])
    {
      FoundIff(DisksOf(vm), n);
    }
  }

  lemma SameNames(a: seq<Disk>, b: seq<Disk>)
    requires SameShape(a, b)
    ensures Names(a) == Names(b)
  {
    forall d | d in a
      ensures d.name in Names(b)
    {
      var i :| 0 <= i < |a| && a[i] == d;
      assert b[i] in b;
    }
    forall d | d in b
      ensures d.name in Names(a)
    {
      var i :| 0 <= i < |b| && b[i] == d;
      assert a[i] in a;
    }
  }

  /** Restoring puts every configured place of the snapshot on its disk. */
  lemma RestoringGives(ds: seq<Disk>, orders: seq<DiskOrder>, base: Orders)
    requires Gives(Snapshot(orders), base) && base.Keys <= Names(ds)
    ensures Gives(Snapshot(Captured(Restored(ds, orders))), base)
  {
    var out := Restored(ds, orders);
    SameNames(ds, out);
    forall n | n in base
      ensures SavedFor(Captured(out), n) == Some(base[n])
    {
      FoundIff(out, n);
      var last := SavedForCaptured(out, n);
      assert out[last] == RestoredDisk(ds[last], orders);
    }
  }

  lemma {:induction false} WithoutOthers(ds: seq<Disk>, media: string, name: string)
    requires name != media
    ensures SavedFor(Captured(VirtualMedia.DisksWithout(ds, media)), name) == SavedFor(Captured(ds), name)
  {
    if ds != [] {
      var rest := VirtualMedia.DisksWithout(ds[1..], media);
      WithoutOthers(ds[1..], media, name);
      PrependedOrder(ds[0], ds[1..], name);
      PrependedOrder(ds[0], rest, name);
      assert [ds[0]] + ds[1..] == ds && [] + rest == rest;
    }
  }

  lemma PrependedOrder(d: Disk, ds: seq<Disk>, name: string)
    ensures SavedFor(Captured([d] + ds), name) ==
            var below := SavedFor(Captured(ds), name);
            if below.Some? then below else if d.name == name then Some(d.bootOrder) else None
  {
    var all := [d] + ds;
    var below := SavedForCaptured(ds, name);
    var last := SavedForCaptured(all, name);
    assert forall i | 0 <= i < |ds| :: all[i + 1] == ds[i];
    assert all[0] == d;
    if below != -1 {
      assert all[below + 1].name == name;
    }
    if last > 0 {
      assert all[last] == ds[last - 1];
    }
    assert last == if below != -1 then below + 1 else if d.name == name then 0 else -1;
  }

  lemma AppendedOrder(ds: seq<Disk>, d: Disk, name: string)
    ensures SavedFor(Captured(ds + [d]), name) ==
            if d.name == name then Some(d.bootOrder) else SavedFor(Captured(ds), name)
  {
    assert Captured(ds + [d])[..|ds|] == Captured(ds);
  }

  lemma {:induction false} EjectedDiskGone(ds: seq<Disk>, media: string)
    requires media in Names(ds)
    ensures |VirtualMedia.DisksWithout(ds, media)| < |ds|
  {
    NeverLonger(ds[1..], media);
    if ds[0].name != media {
      assert media in Names(ds[1..]) by {
        var d :| d in ds && d.name == media;
        assert d in ds[1..];
      }
      EjectedDiskGone(ds[1..], media);
    }
  }

  lemma {:induction false} NeverLonger(ds: seq<Disk>, media: string)
    ensures |VirtualMedia.DisksWithout(ds, media)| <= |ds|
  {
    if ds != [] {
      NeverLonger(ds[1..], media);
    }
  }

  lemma {:induction false} NothingEjected(ds: seq<Disk>, media: string)
    requires media !in Names(ds)
    ensures VirtualMedia.DisksWithout(ds, media) == ds
  {
    if ds != [] {
      assert ds[0] in ds && forall d | d in ds[1..] :: d in ds;
      NothingEjected(ds[1..], media);
    }
  }

  // ----- Steps -----

  ghost predicate Enabled(s: State, e: Event) {
    match e
    case ArmRead(id, _, _) => id !in s.drafts
    case CleanRead(id, ok) => id !in s.drafts && CleansUp(s.vm, Read(s.vmi, ok))
    case OrderRead(id, _) => id !in s.drafts
    case RecordRead(id, _) => id !in s.drafts
    case MountRead(id, _, _) => id !in s.drafts
    case UnmountRead(id, _) => id !in s.drafts && s.vm.template.Some?
    case Patch(id) => id in s.drafts && WellFormed(s.drafts[id])
    case Drop(id) => id in s.drafts
    case Start(uid) => s.vmi == "" && uid != "" && uid !in s.used
    case EditDisks(ds) => s.vm.template.Some? && SameShape(DisksOf(s.vm), ds)
    case EditVolumes(_) => s.vm.template.Some?
    case Stop => true
  }

  /** What is configured after the draft's patch: an order change or insert counts as such if no snapshot is present. */
  function BaseAfter(base: Orders, d: Draft, now: Vm): Orders
    requires WellFormed(d)
  {
    if !WritesDisks(d) then base
    else match d
      case Ordering(_, _) => if now.saved == NoSnapshot then base + OrdersOf(DisksOf(Made(d))) else base
      case Mounting(_, _, _) => if now.saved == NoSnapshot then base[CDROM := None] else base
      case Unmounting(_, media) => base - {media}
      case _ => base
  }

  ghost function Next(s: State, e: Event): State
    requires Enabled(s, e)
  {
    match e
    case ArmRead(id, target, uid) => s.(drafts := s.drafts[id := Arming(s.vm, uid, target)])
    case CleanRead(id, _) => s.(drafts := s.drafts[id := Cleaning(s.vm)])
    case OrderRead(id, target) => s.(drafts := s.drafts[id := Ordering(s.vm, target)])
    case RecordRead(id, options) => s.(drafts := s.drafts[id := Recording(s.vm, options)])
    case MountRead(id, pvc, url) => s.(drafts := s.drafts[id := Mounting(s.vm, pvc, url)])
    case UnmountRead(id, media) => s.(drafts := s.drafts[id := Unmounting(s.vm, media)])
    case Patch(id) =>
      var d := s.drafts[id];
      s.(vm := Landed(d, s.vm), base := BaseAfter(s.base, d, s.vm), drafts := s.drafts - {id})
    case Drop(id) => s.(drafts := s.drafts - {id})
    case Start(uid) => s.(vmi := uid, used := s.used + {uid})
    case Stop => s.(vmi := "")
    case EditDisks(ds) =>
      s.(vm := WithDisks(s.vm, ds), base := if s.vm.saved == NoSnapshot then s.base + OrdersOf(ds) else s.base)
    case EditVolumes(vs) => s.(vm := s.vm.(template := Some(s.vm.template.value.(volumes := vs))))
  }

  ghost predicate Initial(s: State) {
    s.vm.saved == NoSnapshot && s.base == OrdersOf(DisksOf(s.vm)) && s.drafts == map[]
  }

  ghost predicate Run(ss: seq<State>, es: seq<Event>) {
    && |ss| == |es| + 1
    && Initial(ss[0])
    && forall k | 0 <= k < |es| :: Enabled(ss[k], es[k]) && ss[k + 1] == Next(ss[k], es[k])
  }

  lemma RunStep(ss: seq<State>, es: seq<Event>, k: nat)
    requires Run(ss, es) && k < |es|
    ensures Enabled(ss[k], es[k]) && ss[k + 1] == Next(ss[k], es[k])
  {
  }

  lemma PatchStep(s: State, id: nat)
    requires id in s.drafts && WellFormed(s.drafts[id])
    ensures Enabled(s, Patch(id))
    ensures Next(s, Patch(id)) ==
            s.(vm := Landed(s.drafts[id], s.vm), base := BaseAfter(s.base, s.drafts[id], s.vm),
                drafts := s.drafts - {id})
  {
  }

  ghost predicate Sound(s: State) {
    s.vm.saved != Corrupt && forall id | id in s.drafts :: WellFormed(s.drafts[id])
  }

  /** What a prepared copy carries as its snapshot. */
  lemma MadeSaved(d: Draft)
    requires WellFormed(d)
    ensures match d
            case Arming(read, uid, _) =>
              Made(d).saved == if read.saved == NoSnapshot then CaptureOf(read)
                               else if SameInstance(read, uid) then read.saved else CaptureOf(RestoreOf(read))
            case Cleaning(_) => Made(d).saved == NoSnapshot
            case _ => Made(d).saved == d.read.saved
  {
  }

  lemma LandedParts(d: Draft, now: Vm)
    requires WellFormed(d)
    ensures DisksOf(Landed(d, now)) == if WritesDisks(d) then DisksOf(Made(d)) else DisksOf(now)
    ensures VolumesOf(Landed(d, now)) == if VolumesOf(Made(d)) != VolumesOf(d.read) then VolumesOf(Made(d))
        else VolumesOf(now)
    ensures Landed(d, now).saved ==
            if NullsAll(d) then NoSnapshot else if Made(d).saved != d.read.saved then Made(d).saved else now.saved
  {
  }

  /** Only a cleanup and an eject can delete the last annotation. */
  lemma NullsOnlyWhenDeleting(d: Draft)
    requires WellFormed(d) && NullsAll(d)
    ensures d.Cleaning? || (d.Unmounting? && d.read.saved == NoSnapshot)
  {
    MadeSaved(d);
    if d.Mounting? {
      MountAnnotates(d.read, d.pvc, d.url);
    }
  }

  lemma MountAnnotates(vm: Vm, pvc: string, url: string)
    ensures !Unannotated(Mounted(vm, pvc, url))
  {
    assert UrlKey(CDROM) in Mounted(vm, pvc, url).notes;
  }

  /** Which patches null the annotation map. */
  lemma NullsIff(d: Draft)
    requires WellFormed(d)
    ensures NullsAll(d) <==> match d
                             case Cleaning(read) => read.notes.Keys <= OVERRIDE_KEYS
                             case Unmounting(read, media) =>
                               read.saved == NoSnapshot && read.savedUid == None && read.notes.Keys == {UrlKey(media)}
                             case _ => false
  {
    match d
    case Cleaning(read) => NoteKeysGone(read.notes, OVERRIDE_KEYS);
    case Unmounting(read, media) => NoteKeysGone(read.notes, {UrlKey(media)});
    case Mounting(read, pvc, url) => MountAnnotates(read, pvc, url);
    case _ => MadeSaved(d);
  }

  /**
   * What a landed patch makes of each annotation besides those that hold the snapshot: it writes or deletes its own
   * ones, as far as it found them different, and leaves every other as it is now.
   */
  lemma LandedNotes(d: Draft, now: Vm, k: string)
    requires WellFormed(d) && !NullsAll(d)
    ensures var was, found := NoteAt(now.notes, k), NoteAt(d.read.notes, k);
            NoteAt(Landed(d, now).notes, k) ==
            match d
            case Arming(_, _, target) =>
              if k == "redfish.boot.source.override.enabled" && found != Some("Once") then Some("Once")
              else if k == "redfish.boot.source.override.target" && found != Some(target) then Some(target)
              else if k == "redfish.boot.source.override.mode" && found != Some("UEFI") then Some("UEFI")
              else was
            case Cleaning(_) => if k in OVERRIDE_KEYS && found.Some? then None else was
            case Ordering(_, _) => was
            case Recording(_, options) => if k in options && found != Some(options[k]) then Some(options[k]) else was
            case Mounting(_, _, url) => if k == UrlKey(CDROM) && found != Some(url) then Some(url) else was
            case Unmounting(_, media) => if k == UrlKey(media) && found.Some? then None else was
  {
    NotesPatchedAt(d.read.notes, Made(d).notes, now.notes, k);
    MadeNotes(d, k);
    assert Landed(d, now).notes == NotesPatched(d.read.notes, Made(d).notes, now.notes);
  }

  lemma MadeNotes(d: Draft, k: string)
    requires WellFormed(d)
    ensures var found := NoteAt(d.read.notes, k);
            NoteAt(Made(d).notes, k) ==
            match d
            case Arming(_, _, target) =>
              if k == "redfish.boot.source.override.enabled" then Some("Once")
              else if k == "redfish.boot.source.override.target" then Some(target)
              else if k == "redfish.boot.source.override.mode" then Some("UEFI")
              else found
            case Cleaning(_) => if k in OVERRIDE_KEYS then None else found
            case Ordering(_, _) => found
            case Recording(_, options) => if k in options then Some(options[k]) else found
            case Mounting(_, _, url) => if k == UrlKey(CDROM) then Some(url) else found
            case Unmounting(_, media) => if k == UrlKey(media) then None else found
  {
    if d.Arming? {
      assert Made(d).notes == WithOverride(d.read.notes, d.target);
    }
  }

  lemma StepKeepsSound(s: State, e: Event)
    requires Sound(s) && Enabled(s, e)
    ensures Sound(Next(s, e))
  {
    if e.Patch? {
      MadeSaved(s.drafts[e.id]);
      LandedParts(s.drafts[e.id], s.vm);
    }
  }

  lemma {:induction false} RunKeepsSound(ss: seq<State>, es: seq<Event>, k: nat)
    requires Run(ss, es) && k <= |es|
    ensures Sound(ss[k])
  {
    if k > 0 {
      RunKeepsSound(ss, es, k - 1);
      RunStep(ss, es, k - 1);
      StepKeepsSound(ss[k - 1], es[k - 1]);
    }
  }

  // ----- The order that boot-once gives back -----

  ghost predicate Kept(s: State) {
    Holds(s.vm, s.base)
  }

  /**
   * The landing of this patch loses the configured order. Its disk list, if it writes one, lacks a configured disk; or
   * - an arming writes a snapshot of another order, or, writing none, lands without a snapshot and writes other orders;
   * - a cleanup leaves other orders on the disks, those it restores or, if it restores none, those there now;
   * - an insert lands without a snapshot and writes other orders;
   * - an eject lands without a snapshot, or wipes it, and leaves other orders, those it writes or those there now.
   */
  ghost predicate Clobbers(s: State, e: Event)
    requires Enabled(s, e)
  {
    e.Patch? &&
    var d := s.drafts[e.id];
    var read, made, base := d.read, Made(d), BaseAfter(s.base, d, s.vm);
    var left := if WritesDisks(d) then made else s.vm;
    || (WritesDisks(d) && !Has(made, base))
    || match d
       case Arming(_, _, _) =>
         if made.saved != read.saved then !Gives(made.saved, base)
         else s.vm.saved == NoSnapshot && WritesDisks(d) && !Gives(CaptureOf(made), base)
       case Cleaning(_) => !Gives(CaptureOf(left), base)
       case Ordering(_, _) => false
       case Recording(_, _) => false
       case Mounting(_, _, _) => s.vm.saved == NoSnapshot && WritesDisks(d) && !Gives(CaptureOf(made), base)
       case Unmounting(_, _) => (s.vm.saved == NoSnapshot || NullsAll(d)) && !Gives(CaptureOf(left), base)
  }

  lemma PatchKeepsIff(s: State, id: nat)
    requires Sound(s) && Kept(s) && Enabled(s, Patch(id))
    ensures Kept(Next(s, Patch(id))) <==> !Clobbers(s, Patch(id))
  {
    var d, landed, base := s.drafts[id], Landed(s.drafts[id], s.vm), BaseAfter(s.base, s.drafts[id], s.vm);
    MadeSaved(d);
    LandedParts(d, s.vm);
    if NullsAll(d) {
      NullsOnlyWhenDeleting(d);
    }
    if Gives(CaptureOf(landed), base) {
      GivesMeansHas(landed, base);
    }
    if d.Ordering? && Has(Made(d), s.base) {
      OwnOrdersGiven(Made(d), s.base);
    }
  }

  lemma StepKeepsIff(s: State, e: Event)
    requires Sound(s) && Kept(s) && Enabled(s, e)
    ensures Kept(Next(s, e)) <==> !Clobbers(s, e)
  {
    match e
    case Patch(id) => PatchKeepsIff(s, id);
    case EditDisks(ds) =>
      SameNames(DisksOf(s.vm), ds);
      OwnOrdersGiven(WithDisks(s.vm, ds), s.base);
      GivesMeansHas(WithDisks(s.vm, ds), s.base + OrdersOf(ds));
    case _ =>
  }

  ghost predicate ClobbersAt(ss: seq<State>, es: seq<Event>, m: nat)
    requires m < |es| && m < |ss|
  {
    Enabled(ss[m], es[m]) && Clobbers(ss[m], es[m])
  }

  /** In any run the configured order is kept at every moment exactly if no patch ever clobbers it. */
  lemma ConfiguredOrderKeptIff(ss: seq<State>, es: seq<Event>, k: nat)
    requires Run(ss, es) && k <= |es|
    ensures (forall m | 0 <= m <= k :: Kept(ss[m])) <==> forall m | 0 <= m < k :: !ClobbersAt(ss, es, m)
  {
    InitiallyKept(ss[0]);
    forall m | 0 <= m < k && Kept(ss[m])
      ensures Kept(ss[m + 1]) <==> !ClobbersAt(ss, es, m)
    {
      RunKeepsSound(ss, es, m);
      RunStep(ss, es, m);
      StepKeepsIff(ss[m], es[m]);
    }
    KeptChain(ss, es, k);
  }

  lemma InitiallyKept(s: State)
    requires Initial(s)
    ensures Kept(s)
  {
    assert map[] + OrdersOf(DisksOf(s.vm)) == s.base;
    OwnOrdersGiven(s.vm, map[]);
    GivesMeansHas(s.vm, s.base);
  }

  lemma {:induction false} KeptChain(ss: seq<State>, es: seq<Event>, k: nat)
    requires k <= |es| && |ss| == |es| + 1 && Kept(ss[0])
    requires forall m | 0 <= m < k && Kept(ss[m]) :: Kept(ss[m + 1]) <==> !ClobbersAt(ss, es, m)
    ensures (forall m | 0 <= m <= k :: Kept(ss[m])) <==> forall m | 0 <= m < k :: !ClobbersAt(ss, es, m)
  {
    if k > 0 {
      KeptChain(ss, es, k - 1);
      assert Kept(ss[k - 1]) ==> (Kept(ss[k - 1 + 1]) <==> !ClobbersAt(ss, es, k - 1));
    }
  }

  // ----- What an operation makes of a VM that holds the configured order -----

  lemma OverriddenNames(vm: Vm, target: string)
    ensures Names(DisksOf(OverrideOf(vm, target))) == Names(DisksOf(vm))
  {
    SameNames(DisksOf(vm), DisksOf(OverrideOf(vm, target)));
  }

  lemma RestoreHolds(vm: Vm, base: Orders)
    requires vm.saved.Snapshot? && Holds(vm, base)
    ensures Has(RestoreOf(vm), base) && Gives(CaptureOf(RestoreOf(vm)), base)
  {
    RestoringGives(DisksOf(vm), vm.saved.orders, base);
    assert DisksOf(RestoreOf(vm)) == Restored(DisksOf(vm), vm.saved.orders);
    GivesMeansHas(RestoreOf(vm), base);
  }

  /** An arming keeps every configured disk and saves the configured order. */
  lemma ArmingHolds(vm: Vm, uid: string, target: string, base: Orders)
    requires vm.saved != Corrupt && Holds(vm, base)
    ensures Has(Armed(vm, uid, target), base) && Gives(Armed(vm, uid, target).saved, base)
  {
    MadeSaved(Arming(vm, uid, target));
    OverriddenNames(vm, target);
    if vm.saved != NoSnapshot {
      RestoreHolds(vm, base);
      OverriddenNames(RestoreOf(vm), target);
      assert Names(DisksOf(RestoreOf(vm))) == Names(DisksOf(vm)) by {
        SameNames(DisksOf(vm), DisksOf(RestoreOf(vm)));
      }
    }
  }

  /** A cleanup puts the configured order on the disks. */
  lemma CleaningHolds(vm: Vm, base: Orders)
    requires vm.saved.Snapshot? && Holds(vm, base)
    ensures Gives(CaptureOf(CleanedUp(vm)), base)
  {
    RestoreHolds(vm, base);
  }

  lemma CdRomAppended(vm: Vm, pvc: string, url: string)
    ensures DisksWritten(vm, Mounted(vm, pvc, url)) <==> CDROM !in Names(DisksOf(vm))
    ensures CDROM !in Names(DisksOf(vm)) ==> DisksOf(Mounted(vm, pvc, url)) == DisksOf(vm) + [Disk(CDROM, CdRom, None)]
  {
    assert VirtualMedia.HasDisk(DisksOf(vm), CDROM) <==> CDROM in Names(DisksOf(vm));
    assert |DisksOf(vm) + [Disk(CDROM, CdRom, None)]| == |DisksOf(vm)| + 1;
  }

  /** An insert that adds the CD-ROM keeps every place and gives the new disk none. */
  lemma MountingHolds(vm: Vm, pvc: string, url: string, base: Orders)
    requires CDROM !in Names(DisksOf(vm)) && Has(vm, base)
    ensures CDROM !in base && Has(Mounted(vm, pvc, url), base)
    ensures Gives(CaptureOf(vm), base) ==> Gives(CaptureOf(Mounted(vm, pvc, url)), base[CDROM := None])
  {
    CdRomAppended(vm, pvc, url);
    var made, cd := DisksOf(Mounted(vm, pvc, url)), Disk(CDROM, CdRom, None);
    forall n
      ensures SavedFor(Captured(made), n) == if n == CDROM then Some(None) else SavedFor(Captured(DisksOf(vm)), n)
      ensures n in Names(DisksOf(vm)) ==> n in Names(made)
    {
      AppendedOrder(DisksOf(vm), cd, n);
      FoundIff(DisksOf(vm), n);
      FoundIff(made, n);
    }
  }

  /** An eject keeps the places of the other disks. */
  lemma UnmountingHolds(vm: Vm, media: string, base: Orders)
    requires vm.template.Some? && Has(vm, base)
    ensures Has(Unmounted(vm, media), base - {media})
    ensures Gives(CaptureOf(vm), base) ==> Gives(CaptureOf(Unmounted(vm, media)), base - {media})
  {
    forall n | n in base - {media}
      ensures n in Names(DisksOf(Unmounted(vm, media)))
      ensures SavedFor(Captured(DisksOf(Unmounted(vm, media))), n) == SavedFor(Captured(DisksOf(vm)), n)
    {
      WithoutOthers(DisksOf(vm), media, n);
      FoundIff(DisksOf(vm), n);
      FoundIff(DisksOf(Unmounted(vm, media)), n);
    }
  }

  /**
   * What is left of the ways to lose the order if the operation read a VM that held the order as it is configured
   * now.
   */
  lemma LossAgainstSameBase(s: State, id: nat)
    requires Sound(s) && Kept(s) && Enabled(s, Patch(id)) && Clobbers(s, Patch(id)) && Holds(s.drafts[id].read, s.base)
    ensures var d := s.drafts[id];
            || (d.read.saved != NoSnapshot && s.vm.saved == NoSnapshot)
            || (d.Cleaning? && !WritesDisks(d) && CaptureOf(s.vm) != CaptureOf(d.read))
            || (d.Unmounting? && d.read.saved == NoSnapshot && s.vm.saved != NoSnapshot)
  {
    var d := s.drafts[id];
    match d
    case Arming(read, uid, target) => ArmingHolds(read, uid, target, s.base);
    case Cleaning(read) => CleaningHolds(read, s.base); GivesMeansHas(Made(d), s.base);
    case Ordering(read, target) => OrderingLosesNothing(s, id);
    case Recording(_, _) =>
    case Mounting(read, pvc, url) =>
      CdRomAppended(read, pvc, url);
      if WritesDisks(d) {
        MountingHolds(read, pvc, url, s.base);
        GivesMeansHasIf(Made(d), BaseAfter(s.base, d, s.vm));
      }
    case Unmounting(read, media) =>
      UnmountingHolds(read, media, s.base);
      if NullsAll(d) {
        NullsOnlyWhenDeleting(d);
      }
  }

  lemma GivesMeansHasIf(vm: Vm, base: Orders)
    ensures Gives(CaptureOf(vm), base) ==> Has(vm, base)
  {
    if Gives(CaptureOf(vm), base) {
      GivesMeansHas(vm, base);
    }
  }

  lemma OrderingLosesNothing(s: State, id: nat)
    requires Enabled(s, Patch(id)) && s.drafts[id].Ordering? && Has(s.drafts[id].read, s.base)
    ensures !Clobbers(s, Patch(id))
  {
    var d := s.drafts[id];
    OverriddenNames(d.read, d.target);
    forall n | n in BaseAfter(s.base, d, s.vm)
      ensures n in Names(DisksOf(Made(d)))
    {
    }
  }

  // ----- Which steps do what -----

  ghost predicate Arms(s: State, e: Event) {
    e.Patch? && e.id in s.drafts && s.drafts[e.id].Arming?
  }

  ghost predicate ClearsSnapshot(s: State, e: Event) {
    e.Patch? && e.id in s.drafts && WellFormed(s.drafts[e.id]) && (s.drafts[e.id].Cleaning? || NullsAll(s.drafts[e.id]))
  }

  /** An order change, an insert or an eject lands, or another client edits the disks. */
  ghost predicate Configures(s: State, e: Event) {
    || e.EditDisks?
    || (e.Patch? && e.id in s.drafts
        && (s.drafts[e.id].Ordering? || s.drafts[e.id].Mounting? || s.drafts[e.id].Unmounting?))
  }

  lemma OnlyArmingSaves(s: State, e: Event)
    requires Sound(s) && Enabled(s, e) && s.vm.saved == NoSnapshot && Next(s, e).vm.saved != NoSnapshot
    ensures Arms(s, e) && Next(s, e).base == s.base
  {
    if e.Patch? {
      MadeSaved(s.drafts[e.id]);
      LandedParts(s.drafts[e.id], s.vm);
    }
  }

  lemma OnlyCleanupsClear(s: State, e: Event)
    requires Sound(s) && Enabled(s, e) && s.vm.saved != NoSnapshot && Next(s, e).vm.saved == NoSnapshot
    ensures ClearsSnapshot(s, e)
  {
    if e.Patch? {
      MadeSaved(s.drafts[e.id]);
      LandedParts(s.drafts[e.id], s.vm);
    }
  }

  lemma BaseStays(s: State, e: Event)
    requires Enabled(s, e) && !Configures(s, e)
    ensures Next(s, e).base == s.base
  {
  }

  /** With a snapshot present the configured order only loses ejected disks. */
  lemma BaseShrinks(s: State, e: Event)
    requires Enabled(s, e) && s.vm.saved != NoSnapshot
    ensures forall n | n in Next(s, e).base :: n in s.base && Next(s, e).base[n] == s.base[n]
  {
  }

  lemma OrdersStay(s: State, e: Event)
    requires Enabled(s, e) && !e.Patch? && !e.EditDisks?
    ensures DisksOf(Next(s, e).vm) == DisksOf(s.vm)
  {
  }

  lemma {:induction false} BaseShrinksInRun(ss: seq<State>, es: seq<Event>, j: nat, k: nat, name: string)
    requires Run(ss, es) && j <= k <= |es| && name in ss[k].base
    requires forall m | j <= m < k :: ss[m].vm.saved != NoSnapshot
    ensures name in ss[j].base && ss[j].base[name] == ss[k].base[name]
    decreases k
  {
    if j < k {
      RunStep(ss, es, k - 1);
      BaseShrinks(ss[k - 1], es[k - 1]);
      BaseShrinksInRun(ss, es, j, k - 1, name);
    }
  }

  /** The arming that took the snapshot, with one present ever since. */
  lemma {:induction false} FirstArming(ss: seq<State>, es: seq<Event>, k: nat) returns (first: nat)
    requires Run(ss, es) && k <= |es| && ss[k].vm.saved != NoSnapshot
    ensures first < k && ss[first].vm.saved == NoSnapshot && Arms(ss[first], es[first])
    ensures forall m | first < m <= k :: ss[m].vm.saved != NoSnapshot
  {
    assert k > 0;
    if ss[k - 1].vm.saved == NoSnapshot {
      RunStep(ss, es, k - 1);
      RunKeepsSound(ss, es, k - 1);
      OnlyArmingSaves(ss[k - 1], es[k - 1]);
      first := k - 1;
    } else {
      first := FirstArming(ss, es, k - 1);
    }
  }

  /**
   * While the order is kept, a snapshot gives each configured disk its place just before the first arming since the
   * last cleanup landed.
   */
  lemma {:induction false} KeptSnapshotIsTheOrderBeforeArming(ss: seq<State>, es: seq<Event>, k: nat)
      returns (first: nat)
    requires Run(ss, es) && k <= |es| && ss[k].vm.saved != NoSnapshot
    requires forall m | 0 <= m <= k :: Kept(ss[m])
    ensures first < k && ss[first].vm.saved == NoSnapshot && Arms(ss[first], es[first])
    ensures forall m | first < m <= k :: ss[m].vm.saved != NoSnapshot
    ensures ss[k].vm.saved.Snapshot?
    ensures forall n | n in ss[k].base ::
              n in ss[first].base && ss[k].base[n] == ss[first].base[n]
              && SavedFor(ss[k].vm.saved.orders, n) == SavedFor(CaptureOf(ss[first].vm).orders, n) ==
                  Some(ss[k].base[n])
  {
    assert Kept(ss[k]);
    first := FirstArming(ss, es, k);
    assert Kept(ss[first]);
    forall n | n in ss[k].base
      ensures n in ss[first].base && ss[k].base[n] == ss[first].base[n]
    {
      RunStep(ss, es, first);
      RunKeepsSound(ss, es, first);
      BaseShrinksInRun(ss, es, first + 1, k, n);
      OnlyArmingSaves(ss[first], es[first]);
    }
  }

  /**
   * An order change that lands while a snapshot is present does not count as configured: the next cleanup that keeps
   * the configured order undoes it, disk by disk, unless the place it gives the disk is the configured one, the one
   * that the snapshot it met gives.
   */
  lemma OrderSetWhileArmedLastsIff(ss: seq<State>, es: seq<Event>, j: nat, k: nat, name: string)
    requires Run(ss, es) && j < k < |es| && es[j].Patch? && es[j].id in ss[j].drafts && ss[j].drafts[es[j].id].Ordering?
    requires (forall m | j <= m <= k :: ss[m].vm.saved != NoSnapshot) && ss[k + 1].vm.saved == NoSnapshot
    requires Kept(ss[j]) && Kept(ss[k + 1]) && name in ss[k + 1].base && name in Names(DisksOf(ss[j + 1].vm))
    ensures ss[j + 1].vm.saved == ss[j].vm.saved && ss[j + 1].vm.armed == ss[j].vm.armed && ss[j + 1].base == ss[j].base
    ensures ss[j].vm.saved.Snapshot? && name in Names(DisksOf(ss[k + 1].vm))
    ensures OrdersOf(DisksOf(ss[k + 1].vm))[name] == OrdersOf(DisksOf(ss[j + 1].vm))[name] <==>
            SavedFor(ss[j].vm.saved.orders, name) == Some(OrdersOf(DisksOf(ss[j + 1].vm))[name])
  {
    RunStep(ss, es, j);
    OrderingTouchesOrdersOnly(ss[j], es[j].id);
    BaseShrinksInRun(ss, es, j, k + 1, name);
    KeptPlace(ss[j], name);
    KeptPlace(ss[k + 1], name);
  }

  lemma KeptPlace(s: State, name: string)
    requires Kept(s) && name in s.base
    ensures name in Names(DisksOf(s.vm))
    ensures s.vm.saved == NoSnapshot ==> OrdersOf(DisksOf(s.vm))[name] == s.base[name]
    ensures s.vm.saved != NoSnapshot ==>
              s.vm.saved.Snapshot? && SavedFor(s.vm.saved.orders, name) == Some(s.base[name])
  {
    FoundIff(DisksOf(s.vm), name);
  }

  lemma OrderingTouchesOrdersOnly(s: State, id: nat)
    requires Enabled(s, Patch(id)) && s.drafts[id].Ordering?
    ensures var n := Next(s, Patch(id)); n.vm.saved == s.vm.saved && n.vm.armed == s.vm.armed
    ensures s.vm.saved != NoSnapshot ==> Next(s, Patch(id)).base == s.base
  {
  }

  // ----- Losing the order takes an overlap -----

  ghost predicate Reads(e: Event, id: nat) {
    (e.ArmRead? || e.CleanRead? || e.OrderRead? || e.RecordRead? || e.MountRead? || e.UnmountRead?) && e.id == id
  }

  lemma DraftStep(s: State, e: Event, id: nat)
    requires Enabled(s, e) && id in Next(s, e).drafts
    ensures if Reads(e, id) then
              && Next(s, e).drafts[id].read == s.vm && id !in s.drafts
              && (Next(s, e).drafts[id].Cleaning? <==> e.CleanRead?)
            else id in s.drafts && s.drafts[id] == Next(s, e).drafts[id]
  {
  }

  /** The step at which a pending operation read the VM. */
  lemma {:induction false} DraftReadAt(ss: seq<State>, es: seq<Event>, k: nat, id: nat) returns (a: nat)
    requires Run(ss, es) && k <= |es| && id in ss[k].drafts
    ensures a < k && Reads(es[a], id) && id !in ss[a].drafts && ss[k].drafts[id].read == ss[a].vm
    ensures es[a].CleanRead? <==> ss[k].drafts[id].Cleaning?
    ensures forall m | a < m <= k :: id in ss[m].drafts && ss[m].drafts[id] == ss[k].drafts[id]
  {
    RunStep(ss, es, k - 1);
    DraftStep(ss[k - 1], es[k - 1], id);
    if Reads(es[k - 1], id) {
      a := k - 1;
    } else {
      a := DraftReadAt(ss, es, k - 1, id);
    }
  }

  lemma {:induction false} SnapshotClearedBetween(ss: seq<State>, es: seq<Event>, a: nat, k: nat) returns (m: nat)
    requires Run(ss, es) && a <= k <= |es| && ss[a].vm.saved != NoSnapshot && ss[k].vm.saved == NoSnapshot
    ensures a <= m < k && ClearsSnapshot(ss[m], es[m])
  {
    if ss[k - 1].vm.saved == NoSnapshot {
      m := SnapshotClearedBetween(ss, es, a, k - 1);
    } else {
      m := k - 1;
      RunStep(ss, es, m);
      RunKeepsSound(ss, es, m);
      OnlyCleanupsClear(ss[m], es[m]);
    }
  }

  lemma {:induction false} SnapshotTakenBetween(ss: seq<State>, es: seq<Event>, a: nat, k: nat) returns (m: nat)
    requires Run(ss, es) && a <= k <= |es| && ss[a].vm.saved == NoSnapshot && ss[k].vm.saved != NoSnapshot
    ensures a <= m < k && Arms(ss[m], es[m])
  {
    if ss[k - 1].vm.saved != NoSnapshot {
      m := SnapshotTakenBetween(ss, es, a, k - 1);
    } else {
      m := k - 1;
      RunStep(ss, es, m);
      RunKeepsSound(ss, es, m);
      OnlyArmingSaves(ss[m], es[m]);
    }
  }

  /** In a sequence whose ends differ some neighbours do. */
  lemma {:induction false} SomeChange<T>(xs: seq<T>, a: nat, k: nat) returns (m: nat)
    requires a <= k < |xs| && xs[a] != xs[k]
    ensures a <= m < k && xs[m] != xs[m + 1]
  {
    m := k - 1;
    if xs[a] != xs[k - 1] {
      m := SomeChange(xs, a, k - 1);
    }
  }

  lemma BaseChangedBetween(ss: seq<State>, es: seq<Event>, a: nat, k: nat) returns (m: nat)
    requires Run(ss, es) && a <= k <= |es| && ss[a].base != ss[k].base
    ensures a <= m < k && Configures(ss[m], es[m])
  {
    m := SomeChange(seq(|ss|, i requires 0 <= i < |ss| => ss[i].base), a, k);
    if !Configures(ss[m], es[m]) {
      RunStep(ss, es, m);
      BaseStays(ss[m], es[m]);
    }
  }

  lemma DisksChangedBetween(ss: seq<State>, es: seq<Event>, a: nat, k: nat) returns (m: nat)
    requires Run(ss, es) && a <= k <= |es| && DisksOf(ss[a].vm) != DisksOf(ss[k].vm)
    ensures a <= m < k && (es[m].Patch? || es[m].EditDisks?)
  {
    m := SomeChange(seq(|ss|, i requires 0 <= i < |ss| => DisksOf(ss[i].vm)), a, k);
    if !es[m].Patch? && !es[m].EditDisks? {
      RunStep(ss, es, m);
      OrdersStay(ss[m], es[m]);
    }
  }

  /** What landed between the read and the patch of an operation that lost the order. */
  ghost predicate Interferes(s: State, e: Event, d: Draft) {
    || Configures(s, e)
    || (d.read.saved != NoSnapshot && ClearsSnapshot(s, e))
    || (d.Cleaning? && e.Patch?)
    || (d.Unmounting? && Arms(s, e))
  }

  /**
   * The first patch that loses the configured order has met a change since its read: an order change, insert or
   * eject, or a cleanup if it read an armed VM, or any patch if it is a cleanup, or an arming if it is an eject.
   */
  lemma LosingTheOrderTakesAnOverlap(ss: seq<State>, es: seq<Event>, k: nat) returns (a: nat, m: nat)
    requires Run(ss, es) && k < |es| && ClobbersAt(ss, es, k)
    requires forall j | 0 <= j <= k :: Kept(ss[j])
    ensures a < m < k && Reads(es[a], es[k].id) && Interferes(ss[m], es[m], ss[k].drafts[es[k].id])
    ensures ss[k].drafts[es[k].id].read == ss[a].vm && forall j | a < j <= k :: es[k].id in ss[j].drafts
  {
    a := DraftReadAt(ss, es, k, es[k].id);
    assert Kept(ss[a]) && Kept(ss[k]);
    m := LossMeets(ss, es, a, k);
  }

  lemma LossMeets(ss: seq<State>, es: seq<Event>, a: nat, k: nat) returns (m: nat)
    requires Run(ss, es) && a < k < |es| && ClobbersAt(ss, es, k) && Kept(ss[a]) && Kept(ss[k])
    requires ss[k].drafts[es[k].id].read == ss[a].vm && Reads(es[a], es[k].id)
    ensures a < m < k && Interferes(ss[m], es[m], ss[k].drafts[es[k].id])
  {
    if ss[a].base != ss[k].base {
      m := BaseChangedBetween(ss, es, a, k);
    } else {
      m := LossWithSameBase(ss, es, a, k);
    }
    ReadsInterfereWithNothing(ss[a], es[a], es[k].id, ss[k].drafts[es[k].id]);
  }

  lemma ReadsInterfereWithNothing(s: State, e: Event, id: nat, d: Draft)
    requires Reads(e, id)
    ensures !Interferes(s, e, d) && !Configures(s, e)
  {
  }

  lemma LossWithSameBase(ss: seq<State>, es: seq<Event>, a: nat, k: nat) returns (m: nat)
    requires Run(ss, es) && a <= k < |es| && ClobbersAt(ss, es, k) && Kept(ss[a]) && Kept(ss[k])
    requires ss[k].drafts[es[k].id].read == ss[a].vm && ss[a].base == ss[k].base
    ensures a <= m < k && (Interferes(ss[m], es[m], ss[k].drafts[es[k].id]))
  {
    var d := ss[k].drafts[es[k].id];
    RunKeepsSound(ss, es, k);
    LossAgainstSameBase(ss[k], es[k].id);
    if d.read.saved != NoSnapshot && ss[k].vm.saved == NoSnapshot {
      m := SnapshotClearedBetween(ss, es, a, k);
    } else if d.Cleaning? {
      m := DisksChangedBetween(ss, es, a, k);
    } else {
      m := SnapshotTakenBetween(ss, es, a, k);
    }
  }

  lemma NoOverlapNoLoss(ss: seq<State>, es: seq<Event>, k: nat)
    requires Run(ss, es) && k < |es|
    requires forall j | 0 <= j <= k :: Kept(ss[j])
    requires es[k].Patch? ==> k > 0 && es[k].id !in ss[k - 1].drafts
    ensures Kept(ss[k + 1])
  {
    RunStep(ss, es, k);
    RunKeepsSound(ss, es, k);
    assert Kept(ss[k]);
    StepKeepsIff(ss[k], es[k]);
    if ClobbersAt(ss, es, k) {
      var a, m := LosingTheOrderTakesAnOverlap(ss, es, k);
    }
  }

  /** Without overlaps, each patch coming right after its read, the order is kept in every run. */
  lemma {:induction false} UninterruptedOperationsKeepTheOrder(ss: seq<State>, es: seq<Event>, k: nat)
    requires Run(ss, es) && k <= |es|
    requires forall j | 0 <= j < k && es[j].Patch? :: j > 0 && es[j].id !in ss[j - 1].drafts
    ensures forall m | 0 <= m <= k :: Kept(ss[m])
  {
    if k == 0 {
      InitiallyKept(ss[0]);
    } else {
      UninterruptedOperationsKeepTheOrder(ss, es, k - 1);
      NoOverlapNoLoss(ss, es, k - 1);
    }
  }

  // ----- Without overlap -----

  /** A patch that meets the VM it was computed from gives the modified copy: without overlap operations are atomic. */
  lemma UninterruptedIsAtomic(d: Draft)
    requires WellFormed(d)
    ensures Landed(d, d.read) == Made(d)
  {
    if d.Mounting? {
      CdRomAppended(d.read, d.pvc, d.url);
    }
    PatchOfOwnRead(d.read, Made(d));
  }
}
