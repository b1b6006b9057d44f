/** The boot-once state of a VM: what arming and cleanup make of it, and the patches that carry them. */
module BootOnceVm {
  import opened Text
  import opened VmSpec
  import opened BootOrder

  /** The original-config annotation; Corrupt is a text that does not decode. */
  datatype SavedOrder = NoSnapshot | Snapshot(orders: seq<DiskOrder>) | Corrupt

  const ENABLED_KEY := "redfish.boot.source.override.enabled"
  const TARGET_KEY := "redfish.boot.source.override.target"
  const MODE_KEY := "redfish.boot.source.override.mode"
  const OVERRIDE_KEYS := {ENABLED_KEY, TARGET_KEY, MODE_KEY}

  /**
   * `armed`: the boot-once label is "enabled"; `saved` and `savedUid`: the original-config and vmi-uid annotations,
   * the latter None when missing and Some("") when it says that the VM was off; `notes`: all other annotations.
   */
  datatype Vm = Vm(
    template: Option<Template>, armed: bool, saved: SavedOrder, savedUid: Option<string>, notes: map<string, string>)

  function DisksOf(vm: Vm): seq<Disk> {
    if vm.template.Some? then vm.template.value.disks else []
  }

  function VolumesOf(vm: Vm): seq<Volume> {
    if vm.template.Some? then vm.template.value.volumes else []
  }

  function CaptureOf(vm: Vm): SavedOrder {
    Snapshot(Captured(DisksOf(vm)))
  }

  /** The recorded UID as the code reads it: a missing annotation reads as "". */
  function RecordedUid(vm: Vm): string {
    if vm.savedUid.Some? then vm.savedUid.value else ""
  }

  function WithOverride(notes: map<string, string>, target: string): map<string, string> {
    notes + map[ENABLED_KEY := "Once", TARGET_KEY := target, MODE_KEY := "UEFI"]
  }

  function WithDisks(vm: Vm, ds: seq<Disk>): Vm
    requires vm.template.Some?
  {
    vm.(template := Some(vm.template.value.(disks := ds)))
  }

  predicate CanRestore(vm: Vm) {
    vm.template.Some? ==> vm.saved.Snapshot?
  }

  function RestoreOf(vm: Vm): Vm
    requires CanRestore(vm)
  {
    if vm.template.None? then vm
    else WithDisks(vm, Restored(vm.template.value.disks, vm.saved.orders))
  }

  function OverrideOf(vm: Vm, target: string): Vm {
    if vm.template.None? then vm
    else WithDisks(vm, Overridden(vm.template.value.disks, vm.template.value.volumes, target))
  }

  /** SetBootOnce, `uid` being what the instance lookup returned. */
  function Armed(vm: Vm, uid: string, target: string): Vm {
    var base :=
      if vm.saved == NoSnapshot then vm.(saved := CaptureOf(vm), savedUid := Some(uid))
      else if SameInstance(vm, uid) then vm
      else
        var original := if CanRestore(vm) then RestoreOf(vm) else vm;
        original.(saved := CaptureOf(original), savedUid := Some(uid));
    OverrideOf(base.(armed := true, notes := WithOverride(base.notes, target)), target)
  }

  /** An arming of an armed VM keeps snapshot and UID if the recorded instance still runs. */
  predicate SameInstance(vm: Vm, uid: string) {
    RecordedUid(vm) != "" && RecordedUid(vm) == uid
  }

  predicate InstanceChanged(vm: Vm, uid: string) {
    uid != "" && uid != RecordedUid(vm)
  }

  predicate CleansUp(vm: Vm, uid: string) {
    vm.armed && vm.saved != NoSnapshot && InstanceChanged(vm, uid) && CanRestore(vm)
  }

  function CleanedUp(vm: Vm): Vm
    requires CanRestore(vm)
  {
    RestoreOf(vm).(armed := false, saved := NoSnapshot, savedUid := None, notes := vm.notes - OVERRIDE_KEYS)
  }

  /** The boot-once half of handleVMUpdate. */
  function Handled(vm: Vm, uid: string): Vm {
    if CleansUp(vm, uid) then CleanedUp(vm) else vm
  }

  predicate DisksWritten(read: Vm, made: Vm) {
    DisksOf(made) != DisksOf(read)
  }

  function NoteAt(notes: map<string, string>, k: string): Option<string> {
    if k in notes then Some(notes[k]) else None
  }

  predicate Unannotated(vm: Vm) {
    vm.saved == NoSnapshot && vm.savedUid == None && vm.notes == map[]
  }

  /** The patch deletes the last annotation it read: it nulls the whole annotation map. */
  predicate NullsAnnotations(read: Vm, made: Vm) {
    Unannotated(made) && !Unannotated(read)
  }

  /** Two annotation maps compared key by key, and the differences written over a third. */
  function NotesPatched(
      read: map<string, string>, made: map<string, string>, now: map<string, string>): map<string, string> {
    map k | k in now.Keys + made.Keys && (Writes(read, made, k) || (k in now && !(k in read && k !in made))) ::
      if Writes(read, made, k) then made[k] else now[k]
  }

  predicate Writes(read: map<string, string>, made: map<string, string>, k: string) {
    k in made && !(k in read && read[k] == made[k])
  }

  lemma NotesPatchedAt(read: map<string, string>, made: map<string, string>, now: map<string, string>, k: string)
    ensures NoteAt(NotesPatched(read, made, now), k) ==
            if NoteAt(made, k) == NoteAt(read, k) then NoteAt(now, k) else NoteAt(made, k)
  {
  }

  lemma NoteKeysGone(notes: map<string, string>, keys: set<string>)
    ensures notes - keys == map[] <==> notes.Keys <= keys
  {
    if notes - keys == map[] {
      forall k | k in notes
        ensures k in keys
      {
        assert k !in notes - keys;
      }
    }
  }

  function TemplatePatched(read: Vm, made: Vm, now: Vm): Option<Template> {
    var volumesWritten := VolumesOf(made) != VolumesOf(read);
    if !DisksWritten(read, made) && !volumesWritten then now.template
    else Some(Template(if DisksWritten(read, made) then DisksOf(made) else DisksOf(now),
                       if volumesWritten then VolumesOf(made) else VolumesOf(now)))
  }

  /** The patch from `read` to `made` on the VM as it is now: changed values only, lists as wholes. */
  function Patched(read: Vm, made: Vm, now: Vm): Vm {
    var template := TemplatePatched(read, made, now);
    var armed := if made.armed != read.armed then made.armed else now.armed;
    if NullsAnnotations(read, made) then Vm(template, armed, NoSnapshot, None, map[])
    else Vm(template, armed,
            if made.saved != read.saved then made.saved else now.saved,
            if made.savedUid != read.savedUid then made.savedUid else now.savedUid,
            NotesPatched(read.notes, made.notes, now.notes))
  }

  /** On the VM it was computed from a patch gives the modified copy. */
  lemma PatchOfOwnRead(read: Vm, made: Vm)
    requires if read.template.Some? then made.template.Some? else made.template.Some? ==> DisksOf(made) != []
    ensures Patched(read, made, read) == made
  {
    assert NotesPatched(read.notes, made.notes, read.notes) == made.notes;
  }

  lemma TemplateStays(vm: Vm, uid: string, target: string)
    ensures Armed(vm, uid, target).template.Some? <==> vm.template.Some?
  {
  }

  /**
   * What an arming leaves: the label, the UID it read, the snapshot there was if that UID was on record, and otherwise
   * the order before the override that is there; the new override and its annotations, and nothing else changed.
   */
  ghost predicate ArmedAs(vm: Vm, armed: Vm, uid: string, target: string) {
    && armed.armed && armed.savedUid == Some(uid)
    && armed.saved == (if vm.saved == NoSnapshot then CaptureOf(vm)
                       else if uid != "" && vm.savedUid == Some(uid) then vm.saved
                       else if vm.saved.Snapshot? then Snapshot(Captured(Restored(DisksOf(vm), vm.saved.orders)))
                       else CaptureOf(vm))
    && DisksOf(armed) == Overridden(DisksOf(vm), VolumesOf(vm), target) && VolumesOf(armed) == VolumesOf(vm)
    && NoteAt(armed.notes, "redfish.boot.source.override.enabled") == Some("Once")
    && NoteAt(armed.notes, "redfish.boot.source.override.target") == Some(target)
    && NoteAt(armed.notes, "redfish.boot.source.override.mode") == Some("UEFI")
    && forall k | k !in OVERRIDE_KEYS :: NoteAt(armed.notes, k) == NoteAt(vm.notes, k)
  }

  lemma ArmingWrites(vm: Vm, uid: string, target: string)
    ensures ArmedAs(vm, Armed(vm, uid, target), uid, target)
  {
    assert Armed(vm, uid, target).notes == WithOverride(vm.notes, target);
    if vm.template.Some? && vm.saved.Snapshot? {
      OverrideIgnoresEarlierOrders(DisksOf(vm), DisksOf(RestoreOf(vm)), VolumesOf(vm), target);
    }
  }

  /** RecordVMBootOptionsAsAnnotations. */
  function Recorded(vm: Vm, options: map<string, string>): Vm {
    vm.(notes := vm.notes + options)
  }

  /** What an instance lookup returns; a failed lookup reads as "not running". */
  function Read(vmi: string, ok: bool): string {
    if ok then vmi else ""
  }

  /** Which API calls of an operation succeed. */
  datatype Calls = Calls(getVm: bool, getVmi: bool, patch: bool)

  /**
   * The operations on the object kept by the API server. `now` is what others have made of the VM between an
   * operation's read and its patch, the VM as read if nobody wrote; a failed call leaves it at that.
   */
  class Controller {
    var vm: Vm
    var vmi: string

    constructor (vm: Vm, vmi: string)
      ensures this.vm == vm && this.vmi == vmi
    {
      this.vm, this.vmi := vm, vmi;
    }

    method SetBootOnce(target: string, calls: Calls, now: Vm) returns (ok: bool)
      modifies this`vm
      ensures ok == (calls.getVm && calls.patch)
      ensures vm == if ok then Patched(old(vm), Armed(old(vm), Read(vmi, calls.getVmi), target), now)
                    else if calls.getVm then now else old(vm)
      ensures ok && now == old(vm) ==> vm == Armed(old(vm), Read(vmi, calls.getVmi), target)
      ensures ok && now == old(vm) ==> ArmedAs(old(vm), vm, Read(vmi, calls.getVmi), target)
    {
      if !calls.getVm {
        return false;
      }
      var read := vm;
      var copy := read;
      var uid := if calls.getVmi then vmi else "";
      if copy.saved != NoSnapshot {
        if !(RecordedUid(copy) != "" && RecordedUid(copy) == uid) {
          var restored;
          copy, restored := RestoreInto(copy);
          var snapshot := SnapshotFrom(copy);
          copy := copy.(saved := snapshot, savedUid := Some(uid));
        }
      } else {
        var snapshot := SnapshotFrom(copy);
        copy := copy.(saved := snapshot, savedUid := Some(uid));
      }
      var notes := copy.notes[ENABLED_KEY := "Once"][TARGET_KEY := target][MODE_KEY := "UEFI"];
      assert notes == WithOverride(copy.notes, target);
      copy := copy.(armed := true, notes := notes);
      copy := OverrideInto(copy, target);
      TemplateStays(read, uid, target);
      ArmingWrites(read, uid, target);
      PatchOfOwnRead(read, copy);
      vm := if calls.patch then Patched(read, copy, now) else now;
      ok := calls.patch;
    }

    method SetBootOrder(target: string, calls: Calls, now: Vm) returns (ok: bool)
      modifies this`vm
      ensures ok == (calls.getVm && calls.patch)
      ensures vm == if ok then Patched(old(vm), OverrideOf(old(vm), target), now)
                    else if calls.getVm then now else old(vm)
      ensures ok && now == old(vm) ==> vm == OverrideOf(old(vm), target)
      ensures ok && now == old(vm) ==>
                vm.armed == old(vm).armed && vm.saved == old(vm).saved && vm.savedUid == old(vm).savedUid
                && vm.notes == old(vm).notes && VolumesOf(vm) == VolumesOf(old(vm))
                && DisksOf(vm) == Overridden(DisksOf(old(vm)), VolumesOf(old(vm)), target)
    {
      if !calls.getVm {
        return false;
      }
      var read := vm;
      var copy := OverrideInto(read, target);
      PatchOfOwnRead(read, copy);
      vm := if calls.patch then Patched(read, copy, now) else now;
      ok := calls.patch;
    }

    method HandleVMUpdate(calls: Calls, now: Vm)
      modifies this`vm
      ensures vm == if !calls.getVm || !CleansUp(old(vm), Read(vmi, calls.getVmi)) then old(vm)
                    else if calls.patch then Patched(old(vm), CleanedUp(old(vm)), now) else now
      ensures calls.getVm && calls.patch && now == old(vm) ==> vm == Handled(old(vm), Read(vmi, calls.getVmi))
      ensures calls.getVm && calls.patch && now == old(vm) && vm != old(vm) ==>
                && old(vm).armed && !vm.armed && vm.saved == NoSnapshot && vm.savedUid == None
                && (forall k :: NoteAt(vm.notes, k) == if k in OVERRIDE_KEYS then None else NoteAt(old(vm).notes, k))
                && VolumesOf(vm) == VolumesOf(old(vm))
                && (old(vm).template.Some? ==>
                      old(vm).saved.Snapshot? && DisksOf(vm) == Restored(DisksOf(old(vm)), old(vm).saved.orders))
    {
      if !calls.getVm || !vm.armed || vm.saved == NoSnapshot {
        return;
      }
      var uid := if calls.getVmi then vmi else "";
      var changed;
      if RecordedUid(vm) == "" {
        changed := uid != "";
      } else {
        changed := uid != "" && uid != RecordedUid(vm);
      }
      if changed {
        var read := vm;
        var copy, restored := RestoreInto(read);
        if restored {
          var notes := copy.notes - {ENABLED_KEY, TARGET_KEY, MODE_KEY};
          copy := copy.(armed := false, saved := NoSnapshot, savedUid := None, notes := notes);
          PatchOfOwnRead(read, copy);
          vm := if calls.patch then Patched(read, copy, now) else now;
        }
      }
    }

    /** RecordVMBootOptionsAsAnnotations; `options` are the override annotations that the request gives. */
    method RecordBootOptions(options: map<string, string>, calls: Calls, now: Vm) returns (ok: bool)
      requires options.Keys <= OVERRIDE_KEYS
      modifies this`vm
      ensures ok == (calls.getVm && calls.patch)
      ensures vm == if ok then Patched(old(vm), Recorded(old(vm), options), now)
                    else if calls.getVm then now else old(vm)
      ensures ok && now == old(vm) ==> vm == Recorded(old(vm), options)
      ensures ok && now == old(vm) ==>
                forall k :: NoteAt(vm.notes, k) == if k in options then Some(options[k]) else NoteAt(old(vm).notes, k)
    {
      if !calls.getVm {
        return false;
      }
      var read := vm;
      var notes := read.notes;
      notes := if ENABLED_KEY in options then notes[ENABLED_KEY := options[ENABLED_KEY]] else notes;
      notes := if TARGET_KEY in options then notes[TARGET_KEY := options[TARGET_KEY]] else notes;
      notes := if MODE_KEY in options then notes[MODE_KEY := options[MODE_KEY]] else notes;
      assert notes == read.notes + options;
      var copy := read.(notes := notes);
      PatchOfOwnRead(read, copy);
      vm := if calls.patch then Patched(read, copy, now) else now;
      ok := calls.patch;
    }

    static method RestoreInto(vm: Vm) returns (copy: Vm, ok: bool)
      ensures ok == CanRestore(vm)
      ensures copy == if CanRestore(vm) then RestoreOf(vm) else vm
    {
      copy, ok := vm, true;
      if vm.template.Some? {
        if !vm.saved.Snapshot? {
          return vm, false;
        }
        var ds := vm.template.value.disks;
        var disks := new Disk[|ds|](i requires 0 <= i < |ds| => ds[i]);
        assert disks[..] == ds;
        RestoreBootOrder(disks, vm.saved.orders);
        copy := WithDisks(vm, disks[..]);
      }
    }

    static method SnapshotFrom(vm: Vm) returns (snapshot: SavedOrder)
      ensures snapshot == CaptureOf(vm)
    {
      if vm.template.None? {
        return Snapshot([]);
      }
      var ds := vm.template.value.disks;
      var disks := new Disk[|ds|](i requires 0 <= i < |ds| => ds[i]);
      assert disks[..] == ds;
      var orders := CaptureBootOrder(disks);
      snapshot := Snapshot(orders);
    }

    static method OverrideInto(vm: Vm, target: string) returns (copy: Vm)
      ensures copy == OverrideOf(vm, target)
    {
      copy := vm;
      if vm.template.Some? {
        var ds := vm.template.value.disks;
        var disks := new Disk[|ds|](i requires 0 <= i < |ds| => ds[i]);
        assert disks[..] == ds;
        ModifyBootOrder(vm.template.value.volumes, disks, target);
        copy := WithDisks(vm, disks[..]);
      }
    }
  }
}
