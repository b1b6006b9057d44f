/** Inserting and ejecting ISO images: the VM's disks and volumes, and the claims the images live in. */
module VirtualMedia {
  import opened Text
  import opened VmSpec

  const CDROM := "cdrom0"

  // ----- Spec edits -----

  function Named(vs: seq<Volume>, name: string): (v: Option<Volume>)
    ensures v.Some? ==> v.value in vs && v.value.name == name
  {
    if vs == [] then None else if vs[0].name == name then Some(vs[0]) else Named(vs[1..], name)
  }

  /** The first claim mounted under the name. */
  function ClaimOf(vs: seq<Volume>, name: string): Option<string> {
    if vs == [] then None
    else if vs[0].name == name && vs[0].source.Claim? then Some(vs[0].source.pvc)
    else ClaimOf(vs[1..], name)
  }

  /** The first volume of the name now mounts the claim; without one the volume is appended. */
  function WithClaim(vs: seq<Volume>, name: string, pvc: string): seq<Volume> {
    if vs == [] then [Volume(name, Claim(pvc))]
    else if vs[0].name == name then [Volume(name, Claim(pvc))] + vs[1..]
    else [vs[0]] + WithClaim(vs[1..], name, pvc)
  }

  predicate HasDisk(ds: seq<Disk>, name: string) {
    exists d :: d in ds && d.name == name
  }

  function WithCdRom(ds: seq<Disk>): seq<Disk> {
    if HasDisk(ds, CDROM) then ds else ds + [Disk(CDROM, CdRom, None)]
  }

  function DisksWithout(ds: seq<Disk>, name: string): seq<Disk> {
    if ds == [] then [] else (if ds[0].name == name then [] else [ds[0]]) + DisksWithout(ds[1..], name)
  }

  function VolumesWithout(vs: seq<Volume>, name: string): seq<Volume> {
    if vs == [] then [] else (if vs[0].name == name then [] else [vs[0]]) + VolumesWithout(vs[1..], name)
  }

  method PutCdRomDisk(disks: seq<Disk>) returns (result: seq<Disk>)
    ensures result == WithCdRom(disks)
  {
    for i := 0 to |disks|
      invariant !HasDisk(disks[..i], CDROM)
    {
      if disks[i].name == CDROM {
        return disks;
      }
      assert disks[..i + 1] == disks[..i] + [disks[i]];
    }
    assert disks[..|disks|] == disks;
    result := disks + [Disk(CDROM, CdRom, None)];
  }

  method MountClaim(volumes: seq<Volume>, name: string, pvc: string) returns (result: seq<Volume>, oldPvc: string)
    ensures result == WithClaim(volumes, name, pvc)
    ensures oldPvc == match Named(volumes, name)
                      case Some(v) => (if v.source.Claim? then v.source.pvc else "")
                      case None => ""
  {
    for i := 0 to |volumes|
      invariant forall j | 0 <= j < i :: volumes[j].name != name
    {
      if volumes[i].name == name {
        MountedAt(volumes, name, pvc, i);
        oldPvc := if volumes[i].source.Claim? then volumes[i].source.pvc else "";
        result := volumes[i := Volume(name, Claim(pvc))];
        return;
      }
    }
    MountedAt(volumes, name, pvc, |volumes|);
    result, oldPvc := volumes + [Volume(name, Claim(pvc))], "";
  }

  lemma {:induction false} MountedAt(vs: seq<Volume>, name: string, pvc: string, i: nat)
    requires i <= |vs| && (forall j | 0 <= j < i :: vs[j].name != name) && (i < |vs| ==> vs[i].name == name)
    ensures Named(vs, name) == if i < |vs| then Some(vs[i]) else None
    ensures WithClaim(vs, name, pvc) == vs[..i] + [Volume(name, Claim(pvc))] + if i < |vs| then vs[i + 1..] else []
  {
    if i > 0 {
      MountedAt(vs[1..], name, pvc, i - 1);
      assert vs[..i] == [vs[0]] + vs[1..][..i - 1];
    }
  }

  method RemoveNamed(t: Template, name: string) returns (result: Template)
    ensures result == Template(DisksWithout(t.disks, name), VolumesWithout(t.volumes, name))
  {
    var disks := RemoveDisks(t.disks, name);
    var volumes := RemoveVolumes(t.volumes, name);
    result := Template(disks, volumes);
  }

  method RemoveDisks(disks: seq<Disk>, name: string) returns (kept: seq<Disk>)
    ensures kept == DisksWithout(disks, name)
  {
    kept := [];
    for i := 0 to |disks|
      invariant DisksWithout(disks, name) == kept + DisksWithout(disks[i..], name)
    {
      ghost var rest := DisksWithout(disks[i + 1..], name);
      SuffixStep(disks, i);
      if disks[i].name != name {
        ConcatAssoc(kept, [disks[i]], rest);
        kept := kept + [disks[i]];
      } else {
        assert [] + rest == rest;
      }
    }
  }

  method RemoveVolumes(volumes: seq<Volume>, name: string) returns (kept: seq<Volume>)
    ensures kept == VolumesWithout(volumes, name)
  {
    kept := [];
    for i := 0 to |volumes|
      invariant VolumesWithout(volumes, name) == kept + VolumesWithout(volumes[i..], name)
    {
      ghost var rest := VolumesWithout(volumes[i + 1..], name);
      SuffixStep(volumes, i);
      if volumes[i].name != name {
        ConcatAssoc(kept, [volumes[i]], rest);
        kept := kept + [volumes[i]];
      } else {
        assert [] + rest == rest;
      }
    }
  }

  // ----- Operations -----

  /**
   * `labels`: values of the importing labels by device; `isos`: claims made for images, `undeleted`: those a delete
   * failed for; `sources`: the claims that have a VolumeImportSource, `undeletedSources`: those whose delete failed;
   * `pods`: the helper pods.
   */
  datatype State = State(
    template: Option<Template>, urls: map<string, string>, labels: map<string, string>,
    pvcs: set<string>, isos: set<string>, undeleted: set<string>,
    sources: set<string>, undeletedSources: set<string>, pods: set<string>)

  datatype Patch = Applied | Conflict | Refused

  datatype Attempt = Attempt(getVm: bool, patch: Patch)

  /**
   * The outcome of every API call an insert can make; `helper` says that the storage calls for a helper pod instead
   * of CDI.
   */
  datatype InsertCalls = InsertCalls(
    urlParses: bool, attempts: seq<Attempt>, deleteOld: bool, deleteOldSource: bool, helper: bool,
    createSource: bool, createPvc: bool, createPod: bool, setLabel: bool)

  const MAX_ATTEMPTS := 3

  /** Whether the update loop gets its patch through. */
  predicate Patched(attempts: seq<Attempt>) {
    attempts != [] && attempts[0].getVm &&
    (attempts[0].patch.Applied? || (attempts[0].patch.Conflict? && Patched(attempts[1..])))
  }

  /** The loop goes on after conflicts only. */
  lemma {:induction false} PatchedIff(attempts: seq<Attempt>)
    ensures Patched(attempts) <==>
            exists i :: 0 <= i < |attempts| && attempts[i] == Attempt(true, Applied)
                        && forall j | 0 <= j < i :: attempts[j] == Attempt(true, Conflict)
  {
    if attempts != [] {
      var rest := attempts[1..];
      PatchedIff(rest);
      if Patched(attempts) && !attempts[0].patch.Applied? {
        var i :| 0 <= i < |rest| && rest[i] == Attempt(true, Applied)
                 && forall j | 0 <= j < i :: rest[j] == Attempt(true, Conflict);
        assert attempts[i + 1] == Attempt(true, Applied);
        assert forall j | 0 < j < i + 1 :: attempts[j] == rest[j - 1];
      }
      if i :| 0 <= i < |attempts| && attempts[i] == Attempt(true, Applied)
              && forall j | 0 <= j < i :: attempts[j] == Attempt(true, Conflict) {
        if i > 0 {
          assert attempts[0] == Attempt(true, Conflict) && rest[i - 1] == Attempt(true, Applied);
          assert forall j | 0 <= j < i - 1 :: rest[j] == attempts[j + 1];
        }
      }
    }
  }

  function TemplateOf(s: State): Template {
    if s.template.Some? then s.template.value else Template([], [])
  }

  function OldClaim(s: State): string {
    match Named(TemplateOf(s).volumes, CDROM)
    case Some(v) => if v.source.Claim? then v.source.pvc else ""
    case None => ""
  }

  function Mounted(s: State, pvc: string, url: string): State {
    var t := TemplateOf(s);
    s.(template := Some(Template(WithCdRom(t.disks), WithClaim(t.volumes, CDROM, pvc))), urls := s.urls[CDROM := url])
  }

  /** A delete call on a claim; failing, the claim is marked if it was made for an image. */
  function Deleted(s: State, pvc: string, ok: bool): State {
    if ok then s.(pvcs := s.pvcs - {pvc})
    else if pvc in s.isos then s.(undeleted := s.undeleted + {pvc})
    else s
  }

  function SourceDeleted(s: State, pvc: string, ok: bool): State {
    if ok then s.(sources := s.sources - {pvc})
    else if pvc in s.sources then s.(undeletedSources := s.undeletedSources + {pvc})
    else s
  }

  /** The claim comes into being: CDI's path makes a source for it first. */
  predicate ClaimMade(c: InsertCalls) {
    (c.helper || c.createSource) && c.createPvc
  }

  predicate ImportStarts(c: InsertCalls) {
    ClaimMade(c) && (c.helper ==> c.createPod) && c.setLabel
  }

  predicate InsertSucceeds(c: InsertCalls) {
    c.urlParses && Patched(c.attempts) && ImportStarts(c)
  }

  /** The claim mounted before, and its source, go. */
  function Dropped(s: State, previous: string, c: InsertCalls): State {
    SourceDeleted(Deleted(s, previous, c.deleteOld), previous, c.deleteOldSource)
  }

  /** The state an insert starts its import from. */
  function BeforeImport(s: State, pvc: string, url: string, c: InsertCalls): State {
    if Replaces(s, pvc) then Dropped(Mounted(s, pvc, url), OldClaim(s), c) else Mounted(s, pvc, url)
  }

  predicate Replaces(s: State, pvc: string) {
    OldClaim(s) != "" && OldClaim(s) != pvc
  }

  /** What follows the VM patch: source or not, claim, helper pod or not, label. */
  function Imported(s: State, pvc: string, tag: string, c: InsertCalls): State {
    var sourced := if !c.helper && c.createSource then s.(sources := s.sources + {pvc}) else s;
    if !ClaimMade(c) then sourced
    else
      var created := sourced.(pvcs := sourced.pvcs + {pvc}, isos := sourced.isos + {pvc});
      var started := if c.helper && c.createPod then created.(pods := created.pods + {tag}) else created;
      if ImportStarts(c) then started.(labels := started.labels[CDROM := tag]) else started
  }

  /**
   * What a successful insert leaves: the CD-ROM mounts the claim, its URL and label say so, the claim exists with the
   * helper pod or the import source that fills it, and other disks, volumes, URLs, labels and pods are as they were.
   */
  ghost predicate MediaInserted(s: State, t: State, pvc: string, url: string, tag: string, helper: bool) {
    && Mounts(t, pvc) && HasDisk(t.template.value.disks, CDROM)
    && (forall n | n != CDROM :: Named(t.template.value.volumes, n) == Named(TemplateOf(s).volumes, n))
    && t.template.value.disks == TemplateOf(s).disks
         + (if HasDisk(TemplateOf(s).disks, CDROM) then [] else [Disk(CDROM, CdRom, None)])
    && t.urls == s.urls[CDROM := url] && t.labels == s.labels[CDROM := tag]
    && pvc in t.pvcs && (if helper then tag in t.pods else pvc in t.sources)
    && t.pods == if helper then s.pods + {tag} else s.pods
  }

  /** Insert with a fresh claim name; `tag` is the label value of the import it starts. */
  function Inserted(s: State, pvc: string, url: string, tag: string, c: InsertCalls): State {
    if !c.urlParses || !Patched(c.attempts) then s else Imported(BeforeImport(s, pvc, url, c), pvc, tag, c)
  }

  function LabelAt(s: State, media: string): string {
    if media in s.labels then s.labels[media] else ""
  }

  /**
   * What an eject leaves of the device and of the others: no disk, volume or URL, no importing label unless its removal
   * failed, and not the pod that the label named unless its deletion failed; everything of other devices stays.
   */
  ghost predicate MediaGone(s: State, t: State, media: string, c: EjectCalls) {
    && t.template.Some? && !HasDisk(t.template.value.disks, media) && Named(t.template.value.volumes, media) == None
    && (forall d :: d in t.urls <==> d in s.urls && d != media) && (forall d | d in t.urls :: t.urls[d] == s.urls[d])
    && LabelAt(t, media) == (if c.removeLabel then "" else LabelAt(s, media))
    && (forall d | d != media :: (d in t.labels <==> d in s.labels) && LabelAt(t, d) == LabelAt(s, d))
    && (LabelAt(s, media) != "" && c.deletePod ==> LabelAt(s, media) !in t.pods)
    && (forall p | p in s.pods && p != LabelAt(s, media) :: p in t.pods) && t.pods <= s.pods
  }

  datatype EjectCalls = EjectCalls(getVm: bool, patch: bool, deletePod: bool, removeLabel: bool, deletePvc: bool,
      deleteSource: bool)

  predicate EjectApplies(s: State, c: EjectCalls) {
    c.getVm && s.template.Some? && c.patch
  }

  function Unmounted(s: State, media: string): State
    requires s.template.Some?
  {
    var t := s.template.value;
    s.(template := Some(Template(DisksWithout(t.disks, media), VolumesWithout(t.volumes, media))),
        urls := s.urls - {media})
  }

  function Ejected(s: State, media: string, fallback: string, c: EjectCalls): State {
    if !EjectApplies(s, c) then s
    else
      var unmounted := Unmounted(s, media);
      var importing := media in s.labels && s.labels[media] != "";
      var stopped := if importing && c.deletePod then unmounted.(pods := s.pods - {s.labels[media]}) else unmounted;
      var unlabelled := if importing && c.removeLabel then stopped.(labels := s.labels - {media}) else stopped;
      var pvc := EjectedClaim(s, media, fallback);
      SourceDeleted(Deleted(unlabelled, pvc, c.deletePvc), pvc, c.deleteSource)
  }

  /** The VM and the claims of its namespace. */
  class Media {
    var s: State

    constructor (s: State)
      ensures this.s == s
    {
      this.s := s;
    }

    method InsertVirtualMedia(pvc: string, url: string, tag: string, c: InsertCalls) returns (ok: bool)
      requires |c.attempts| == 3
      modifies this
      ensures ok == InsertSucceeds(c)
      ensures s == Inserted(old(s), pvc, url, tag, c)
      ensures ok ==> MediaInserted(old(s), s, pvc, url, tag, c.helper)
      ensures !ok ==> s.labels == old(s).labels
      ensures c.urlParses && c.attempts[0] == Attempt(true, Applied) ==>
                (c.createSource && c.createPvc && c.createPod && c.setLabel ==> ok)
    {
      if c.urlParses && Patched(c.attempts) {
        InsertPutsMedia(s, pvc, url, tag, c);
      }
      if !c.urlParses {
        return false;
      }
      var patched, oldPvc := UpdateVm(pvc, url, c.attempts);
      if !patched {
        return false;
      }
      if oldPvc != "" && oldPvc != pvc {
        DeleteClaim(oldPvc, c.deleteOld);
        DeleteSource(oldPvc, c.deleteOldSource);
      }
      ok := StartImport(pvc, tag, c);
    }

    /** The update loop: up to three attempts, another one only after a conflict. */
    method UpdateVm(pvc: string, url: string, attempts: seq<Attempt>) returns (patched: bool, oldPvc: string)
      requires |attempts| == MAX_ATTEMPTS
      modifies this
      ensures patched == Patched(attempts)
      ensures s == if patched then Mounted(old(s), pvc, url) else old(s)
      ensures patched ==> oldPvc == OldClaim(old(s))
    {
      patched, oldPvc := false, "";
      var i := 0;
      while i < MAX_ATTEMPTS && !patched
        invariant 0 <= i <= MAX_ATTEMPTS
        invariant !patched ==> i < MAX_ATTEMPTS && s == old(s) && Patched(attempts) == Patched(attempts[i..])
        invariant patched ==> Patched(attempts) && s == Mounted(old(s), pvc, url) && oldPvc == OldClaim(old(s))
        decreases MAX_ATTEMPTS - i, !patched
      {
        var attempt := attempts[i];
        SuffixStep(attempts, i);
        assert !Patched(attempts[MAX_ATTEMPTS..]);
        if !attempt.getVm {
          return;
        }
        var t := if s.template.Some? then s.template.value else Template([], []);
        var ds := PutCdRomDisk(t.disks);
        var vs;
        vs, oldPvc := MountClaim(t.volumes, CDROM, pvc);
        if attempt.patch.Applied? {
          s := s.(template := Some(Template(ds, vs)), urls := s.urls[CDROM := url]);
          patched := true;
        } else if attempt.patch.Refused? || i + 1 == MAX_ATTEMPTS {
          return;
        }
        i := i + 1;
      }
    }

    method StartImport(pvc: string, tag: string, c: InsertCalls) returns (ok: bool)
      modifies this
      ensures ok == ImportStarts(c)
      ensures s == Imported(old(s), pvc, tag, c)
    {
      if !c.helper {
        if !c.createSource {
          return false;
        }
        s := s.(sources := s.sources + {pvc});
      }
      if !c.createPvc {
        return false;
      }
      s := s.(pvcs := s.pvcs + {pvc}, isos := s.isos + {pvc});
      if c.helper {
        if !c.createPod {
          return false;
        }
        s := s.(pods := s.pods + {tag});
      }
      if !c.setLabel {
        return false;
      }
      s := s.(labels := s.labels[CDROM := tag]);
      ok := true;
    }

    method DeleteClaim(pvc: string, ok: bool)
      modifies this
      ensures s == Deleted(old(s), pvc, ok)
    {
      if ok {
        s := s.(pvcs := s.pvcs - {pvc});
      } else if pvc in s.isos {
        s := s.(undeleted := s.undeleted + {pvc});
      }
    }

    method DeleteSource(pvc: string, ok: bool)
      modifies this
      ensures s == SourceDeleted(old(s), pvc, ok)
    {
      if ok {
        s := s.(sources := s.sources - {pvc});
      } else if pvc in s.sources {
        s := s.(undeletedSources := s.undeletedSources + {pvc});
      }
    }

    method EjectVirtualMedia(media: string, fallback: string, c: EjectCalls) returns (ok: bool)
      modifies this
      ensures ok == EjectApplies(old(s), c)
      ensures s == Ejected(old(s), media, fallback, c)
      ensures ok ==> MediaGone(old(s), s, media, c)
      ensures !ok ==> s == old(s)
    {
      if !c.getVm || s.template.None? {
        return false;
      }
      var claim := ClaimOf(s.template.value.volumes, media);
      var helper := if media in s.labels then s.labels[media] else "";
      var t := RemoveNamed(s.template.value, media);
      if !c.patch {
        return false;
      }
      s := s.(template := Some(t), urls := s.urls - {media});
      if helper != "" {
        if c.deletePod {
          s := s.(pods := s.pods - {helper});
        }
        if c.removeLabel {
          s := s.(labels := s.labels - {media});
        }
      }
      EjectClearsMedia(old(s), media, fallback, c);
      var pvc := if claim.Some? && claim.value != "" then claim.value else fallback;
      DeleteClaim(pvc, c.deletePvc);
      DeleteSource(pvc, c.deleteSource);
      ok := true;
    }
  }

  // ----- No image claim is leaked -----

  ghost predicate Mounts(s: State, pvc: string) {
    s.template.Some? && Named(s.template.value.volumes, CDROM) == Some(Volume(CDROM, Claim(pvc)))
  }

  /**
   * Every image claim and every import source that exists is that of the claim mounted as cdrom0, or a delete of it
   * failed.
   */
  ghost predicate NoLeak(s: State) {
    && "" !in s.isos && "" !in s.sources
    && (forall p | p in s.isos && p in s.pvcs :: Mounts(s, p) || p in s.undeleted)
    && (forall p | p in s.sources :: Mounts(s, p) || p in s.undeletedSources)
  }

  lemma {:induction false} MountedIsFirst(vs: seq<Volume>, name: string, pvc: string)
    ensures Named(WithClaim(vs, name, pvc), name) == Some(Volume(name, Claim(pvc)))
  {
    if vs != [] && vs[0].name != name {
      MountedIsFirst(vs[1..], name, pvc);
    }
  }

  lemma {:induction false} RemovingKeepsOthers(vs: seq<Volume>, name: string, other: string)
    requires name != other
    ensures Named(VolumesWithout(vs, name), other) == Named(vs, other)
  {
    if vs != [] {
      RemovingKeepsOthers(vs[1..], name, other);
      if vs[0].name != name {
        assert VolumesWithout(vs, name)[1..] == VolumesWithout(vs[1..], name);
      } else {
        assert VolumesWithout(vs, name) == VolumesWithout(vs[1..], name);
      }
    }
  }

  lemma {:induction false} NamedClaimIsClaimOf(vs: seq<Volume>, name: string, pvc: string)
    requires Named(vs, name) == Some(Volume(name, Claim(pvc)))
    ensures ClaimOf(vs, name) == Some(pvc)
  {
    if vs[0].name != name {
      NamedClaimIsClaimOf(vs[1..], name, pvc);
    }
  }

  lemma DroppedParts(s: State, old': string, c: InsertCalls)
    ensures var t := Dropped(s, old', c);
            && t.template == s.template && t.urls == s.urls && t.labels == s.labels && t.isos == s.isos
            && t.pods == s.pods
            && t.pvcs == s.pvcs - (if c.deleteOld then {old'} else {})
            && t.undeleted == s.undeleted + (if !c.deleteOld && old' in s.isos then {old'} else {})
            && t.sources == s.sources - (if c.deleteOldSource then {old'} else {})
            && t.undeletedSources == s.undeletedSources
                + (if !c.deleteOldSource && old' in s.sources then {old'} else {})
  {
  }

  lemma ImportedVm(s: State, pvc: string, tag: string, c: InsertCalls)
    ensures var t := Imported(s, pvc, tag, c);
            && t.template == s.template && t.urls == s.urls
            && t.labels == (if ImportStarts(c) then s.labels[CDROM := tag] else s.labels)
            && t.pods == s.pods + if c.helper && c.createPvc && c.createPod then {tag} else {}
  {
  }

  lemma ImportedClaims(s: State, pvc: string, tag: string, c: InsertCalls)
    ensures var t := Imported(s, pvc, tag, c);
            && t.isos == s.isos + (if ClaimMade(c) then {pvc} else {})
            && t.pvcs == s.pvcs + (if ClaimMade(c) then {pvc} else {})
            && t.undeleted == s.undeleted && t.undeletedSources == s.undeletedSources
            && t.sources == s.sources + (if !c.helper && c.createSource then {pvc} else {})
  {
  }

  /** What an insert that got its patch through leaves of the VM. */
  lemma InsertedVm(s: State, pvc: string, url: string, tag: string, c: InsertCalls)
    requires c.urlParses && Patched(c.attempts)
    ensures var t := Inserted(s, pvc, url, tag, c);
            && t.template == Mounted(s, pvc, url).template && t.urls == s.urls[CDROM := url]
            && t.labels == (if InsertSucceeds(c) then s.labels[CDROM := tag] else s.labels)
            && t.pods == s.pods + if c.helper && c.createPvc && c.createPod then {tag} else {}
  {
    DroppedParts(Mounted(s, pvc, url), OldClaim(s), c);
    ImportedVm(BeforeImport(s, pvc, url, c), pvc, tag, c);
  }

  lemma InsertedClaims(s: State, pvc: string, url: string, tag: string, c: InsertCalls)
    requires c.urlParses && Patched(c.attempts)
    ensures var t, old' := Inserted(s, pvc, url, tag, c), OldClaim(s);
            && t.isos == s.isos + (if ClaimMade(c) then {pvc} else {})
            && t.pvcs == s.pvcs - (if Replaces(s, pvc) && c.deleteOld then {old'} else {})
                + (if ClaimMade(c) then {pvc} else {})
            && t.undeleted == s.undeleted + (if Replaces(s, pvc) && !c.deleteOld && old' in s.isos then {old'} else {})
  {
    DroppedParts(Mounted(s, pvc, url), OldClaim(s), c);
    ImportedClaims(BeforeImport(s, pvc, url, c), pvc, tag, c);
  }

  lemma InsertedSources(s: State, pvc: string, url: string, tag: string, c: InsertCalls)
    requires c.urlParses && Patched(c.attempts)
    ensures var t, old' := Inserted(s, pvc, url, tag, c), OldClaim(s);
            && t.sources == s.sources - (if Replaces(s, pvc) && c.deleteOldSource then {old'} else {})
                            + (if !c.helper && c.createSource then {pvc} else {})
            && t.undeletedSources == s.undeletedSources
                                     + (if Replaces(s, pvc) && !c.deleteOldSource
                                         && old' in s.sources then {old'} else {})
  {
    DroppedParts(Mounted(s, pvc, url), OldClaim(s), c);
    ImportedClaims(BeforeImport(s, pvc, url, c), pvc, tag, c);
  }

  lemma {:induction false} MountingKeepsOthers(vs: seq<Volume>, name: string, pvc: string, other: string)
    requires name != other
    ensures Named(WithClaim(vs, name, pvc), other) == Named(vs, other)
  {
    if vs != [] && vs[0].name != name {
      MountingKeepsOthers(vs[1..], name, pvc, other);
      assert WithClaim(vs, name, pvc)[1..] == WithClaim(vs[1..], name, pvc);
    } else if vs != [] {
      assert WithClaim(vs, name, pvc)[1..] == vs[1..];
    }
  }

  lemma InsertPutsMedia(s: State, pvc: string, url: string, tag: string, c: InsertCalls)
    requires c.urlParses && Patched(c.attempts)
    ensures InsertSucceeds(c) ==> MediaInserted(s, Inserted(s, pvc, url, tag, c), pvc, url, tag, c.helper)
    ensures !InsertSucceeds(c) ==> Inserted(s, pvc, url, tag, c).labels == s.labels
  {
    InsertedVm(s, pvc, url, tag, c);
    InsertedClaims(s, pvc, url, tag, c);
    InsertedSources(s, pvc, url, tag, c);
    MountedInstead(s, pvc, url);
    forall n | n != CDROM
      ensures Named(WithClaim(TemplateOf(s).volumes, CDROM, pvc), n) == Named(TemplateOf(s).volumes, n)
    {
      MountingKeepsOthers(TemplateOf(s).volumes, CDROM, pvc, n);
    }
    assert HasDisk(WithCdRom(TemplateOf(s).disks), CDROM) by {
      assert !HasDisk(TemplateOf(s).disks, CDROM) ==>
          Disk(CDROM, CdRom, None) in TemplateOf(s).disks + [Disk(CDROM, CdRom, None)];
    }
  }

  /** Mounting a claim as cdrom0 takes the place of the one mounted before. */
  lemma MountedInstead(s: State, pvc: string, url: string)
    ensures Mounts(Mounted(s, pvc, url), pvc)
    ensures forall p | Mounts(s, p) :: OldClaim(s) == p
  {
    MountedIsFirst(TemplateOf(s).volumes, CDROM, pvc);
  }

  lemma InsertKeepsNoLeak(s: State, pvc: string, url: string, tag: string, c: InsertCalls)
    requires NoLeak(s) && pvc != ""
    ensures NoLeak(Inserted(s, pvc, url, tag, c))
  {
    if c.urlParses && Patched(c.attempts) {
      InsertedVm(s, pvc, url, tag, c);
      InsertedClaims(s, pvc, url, tag, c);
      InsertedSources(s, pvc, url, tag, c);
      MountedInstead(s, pvc, url);
      var t := Inserted(s, pvc, url, tag, c);
      assert Mounts(t, pvc);
      forall p | p in t.isos && p in t.pvcs && p != pvc
        ensures p in t.undeleted
      {
        assert Mounts(s, p) || p in s.undeleted;
      }
      forall p | p in t.sources && p != pvc
        ensures p in t.undeletedSources
      {
        assert Mounts(s, p) || p in s.undeletedSources;
      }
    }
  }

  function EjectedClaim(s: State, media: string, fallback: string): string
    requires s.template.Some?
  {
    var claim := ClaimOf(s.template.value.volumes, media);
    if claim.Some? && claim.value != "" then claim.value else fallback
  }

  lemma EjectedParts(s: State, media: string, fallback: string, c: EjectCalls)
    requires EjectApplies(s, c)
    ensures var t, pvc := Ejected(s, media, fallback, c), EjectedClaim(s, media, fallback);
            && t.isos == s.isos && t.pvcs == s.pvcs - (if c.deletePvc then {pvc} else {})
            && t.undeleted == s.undeleted + (if !c.deletePvc && pvc in s.isos then {pvc} else {})
            && t.sources == s.sources - (if c.deleteSource then {pvc} else {})
            && t.undeletedSources == s.undeletedSources + (if !c.deleteSource && pvc in s.sources then {pvc} else {})
  {
  }

  lemma {:induction false} VolumeGone(vs: seq<Volume>, name: string)
    ensures Named(VolumesWithout(vs, name), name) == None && ClaimOf(VolumesWithout(vs, name), name) == None
  {
    if vs != [] {
      VolumeGone(vs[1..], name);
      var rest := VolumesWithout(vs[1..], name);
      assert [] + rest == rest && ([vs[0]] + rest)[1..] == rest;
    }
  }

  lemma EjectedImport(s: State, media: string, fallback: string, c: EjectCalls)
    requires EjectApplies(s, c)
    ensures var t, tag := Ejected(s, media, fallback, c), LabelAt(s, media);
            && t.urls == s.urls - {media}
            && t.labels == (if tag != "" && c.removeLabel then s.labels - {media} else s.labels)
            && t.pods == s.pods - (if tag != "" && c.deletePod then {tag} else {})
  {
  }

  /** After an applied eject the device is gone, and a request about any image finds none mounted there. */
  lemma EjectClearsMedia(s: State, media: string, fallback: string, c: EjectCalls)
    requires EjectApplies(s, c)
    ensures MediaGone(s, Ejected(s, media, fallback, c), media, c)
    ensures forall url :: Check(Ejected(s, media, fallback, c), media, url) == NoMedia
  {
    EjectedTemplate(s, media, fallback, c);
    EjectedImport(s, media, fallback, c);
    RemovedDiskGone(s.template.value.disks, media);
    VolumeGone(s.template.value.volumes, media);
  }

  lemma EjectKeepsNoLeak(s: State, media: string, fallback: string, c: EjectCalls)
    requires NoLeak(s)
    ensures NoLeak(Ejected(s, media, fallback, c))
  {
    if EjectApplies(s, c) {
      var t, vs := Ejected(s, media, fallback, c), s.template.value.volumes;
      EjectedParts(s, media, fallback, c);
      EjectedTemplate(s, media, fallback, c);
      forall p | Mounts(s, p) && p != ""
        ensures if media == CDROM then EjectedClaim(s, media, fallback) == p else Mounts(t, p)
      {
        if media == CDROM {
          NamedClaimIsClaimOf(vs, CDROM, p);
        } else {
          RemovingKeepsOthers(vs, media, CDROM);
        }
      }
    }
  }

  /** Vanish: someone else deletes a claim; UrlsWiped: a boot-once cleanup nulls the annotations. */
  datatype Event =
    | Insert(pvc: string, url: string, tag: string, calls: InsertCalls)
    | Eject(media: string, fallback: string, ejectCalls: EjectCalls)
    | Vanish(gone: string)
    | UrlsWiped

  function Next(s: State, e: Event): State {
    match e
    case Insert(pvc, url, tag, calls) => Inserted(s, pvc, url, tag, calls)
    case Eject(media, fallback, calls) => Ejected(s, media, fallback, calls)
    case Vanish(pvc) => s.(pvcs := s.pvcs - {pvc})
    case UrlsWiped => s.(urls := map[])
  }

  function After(s: State, es: seq<Event>): State {
    if es == [] then s else Next(After(s, es[..|es| - 1]), es[|es| - 1])
  }

  /** Over every sequence of inserts and ejects, whichever calls fail and whatever devices are named. */
  lemma {:induction false} NoImageClaimLeaks(s: State, es: seq<Event>)
    requires NoLeak(s)
    requires forall i | 0 <= i < |es| && es[i].Insert? :: es[i].pvc != ""
    ensures NoLeak(After(s, es))
  {
    if es != [] {
      var before, e := After(s, es[..|es| - 1]), es[|es| - 1];
      NoImageClaimLeaks(s, es[..|es| - 1]);
      match e
      case Insert(pvc, url, tag, calls) => InsertKeepsNoLeak(before, pvc, url, tag, calls);
      case Eject(media, fallback, calls) => EjectKeepsNoLeak(before, media, fallback, calls);
      case Vanish(_) =>
      case UrlsWiped =>
    }
  }

  // ----- Eject after insert -----

  lemma {:induction false} RemovingInsertedDisk(ds: seq<Disk>)
    ensures DisksWithout(WithCdRom(ds), CDROM) == ds <==> !HasDisk(ds, CDROM)
  {
    RemovedDiskGone(WithCdRom(ds), CDROM);
    if !HasDisk(ds, CDROM) {
      RemovingFromEnd(ds, Disk(CDROM, CdRom, None));
    }
  }

  lemma {:induction false} RemovedDiskGone(ds: seq<Disk>, name: string)
    ensures !HasDisk(DisksWithout(ds, name), name)
  {
    if ds != [] {
      RemovedDiskGone(ds[1..], name);
    }
  }

  lemma {:induction false} RemovingFromEnd(ds: seq<Disk>, added: Disk)
    requires !HasDisk(ds, added.name)
    ensures DisksWithout(ds + [added], added.name) == ds
  {
    if ds != [] {
      assert (ds + [added])[1..] == ds[1..] + [added];
      assert forall d | d in ds[1..] :: d in ds;
      RemovingFromEnd(ds[1..], added);
      assert ds[0] in ds;
    }
  }

  lemma {:induction false} RemovingMountedVolume(vs: seq<Volume>, name: string, pvc: string)
    ensures Named(vs, name).None? ==> VolumesWithout(WithClaim(vs, name, pvc), name) == vs
    ensures |VolumesWithout(vs, name)| <= |vs| && |WithClaim(vs, name, pvc)| <= |vs| + 1
    ensures Named(vs, name).Some? ==> |VolumesWithout(WithClaim(vs, name, pvc), name)| < |vs|
  {
    var mounted := WithClaim(vs, name, pvc);
    if vs != [] {
      RemovingMountedVolume(vs[1..], name, pvc);
      if vs[0].name == name {
        assert mounted[1..] == vs[1..];
      } else {
        assert mounted[1..] == WithClaim(vs[1..], name, pvc);
      }
    }
  }

  /** Ejecting what was inserted brings disks and volumes back exactly if there was a template without a cdrom0. */
  lemma EjectUndoesInsertIff(s: State, pvc: string, url: string, tag: string, c: InsertCalls, fallback: string,
      e: EjectCalls)
    requires InsertSucceeds(c) && e.getVm && e.patch
    ensures Ejected(Inserted(s, pvc, url, tag, c), CDROM, fallback, e).template == s.template <==>
            s.template.Some? && !HasDisk(s.template.value.disks, CDROM) && Named(s.template.value.volumes, CDROM).None?
  {
    var t := TemplateOf(s);
    RemovingInsertedDisk(t.disks);
    RemovingMountedVolume(t.volumes, CDROM, pvc);
    InsertedVm(s, pvc, url, tag, c);
    EjectedTemplate(Inserted(s, pvc, url, tag, c), CDROM, fallback, e);
  }

  lemma EjectedTemplate(s: State, media: string, fallback: string, e: EjectCalls)
    requires EjectApplies(s, e)
    ensures var t := s.template.value;
            Ejected(s, media, fallback, e).template ==
            Some(Template(DisksWithout(t.disks, media), VolumesWithout(t.volumes, media)))
  {
  }

  // ----- What a repeated insert request sees -----

  datatype MediaState = NoMedia | Importing | Ready | OtherMedia

  /** CheckInsertedMedia. */
  function Check(s: State, media: string, url: string): MediaState {
    if s.template.None? || ClaimOf(s.template.value.volumes, media).None? then NoMedia
    else if (if media in s.urls then s.urls[media] else "") != url then OtherMedia
    else if media in s.labels && s.labels[media] != "" then Importing
    else Ready
  }

  /**
   * After an insert into a VM without an import, a repeated request reads "importing" exactly if the insert
   * succeeded; an insert that patched the VM and failed later reads "ready", whether its claim exists or not.
   */
  lemma RepeatedRequestSees(s: State, pvc: string, url: string, tag: string, c: InsertCalls)
    requires CDROM !in s.labels && tag != "" && c.urlParses && Patched(c.attempts) && pvc !in s.pvcs
    ensures var t := Inserted(s, pvc, url, tag, c);
            && (Check(t, CDROM, url) == Importing <==> InsertSucceeds(c))
            && (Check(t, CDROM, url) == Ready <==> !InsertSucceeds(c))
            && (Check(t, CDROM, url) == Ready && pvc !in t.pvcs <==> !ClaimMade(c))
            && (forall other | other != url :: Check(t, CDROM, other) == OtherMedia)
  {
    var vs := TemplateOf(s).volumes;
    MountedIsFirst(vs, CDROM, pvc);
    NamedClaimIsClaimOf(WithClaim(vs, CDROM, pvc), CDROM, pvc);
    InsertedVm(s, pvc, url, tag, c);
    InsertedClaims(s, pvc, url, tag, c);
  }

  /** A claim is mounted as cdrom0 and its image URL is gone. */
  predicate Nameless(s: State) {
    s.template.Some? && ClaimOf(s.template.value.volumes, CDROM).Some? && CDROM !in s.urls
  }

  lemma {:induction false} ClaimKept(vs: seq<Volume>, media: string)
    requires media != CDROM
    ensures ClaimOf(VolumesWithout(vs, media), CDROM) == ClaimOf(vs, CDROM)
  {
    if vs != [] {
      ClaimKept(vs[1..], media);
      var rest := VolumesWithout(vs[1..], media);
      assert [] + rest == rest && ([vs[0]] + rest)[1..] == rest;
    }
  }

  /** The event names the image again, or takes the claim away. */
  predicate Renews(e: Event) {
    match e
    case Insert(_, _, _, calls) => calls.urlParses && Patched(calls.attempts)
    case Eject(media, _, calls) => media == CDROM && calls.getVm && calls.patch
    case _ => false
  }

  lemma NamelessStep(s: State, e: Event)
    requires Nameless(s) && !Renews(e)
    ensures Nameless(Next(s, e))
  {
    match e
    case Eject(media, fallback, calls) =>
      if EjectApplies(s, calls) {
        EjectedTemplate(s, media, fallback, calls);
        ClaimKept(s.template.value.volumes, media);
      }
    case _ =>
  }

  lemma {:induction false} StaysNameless(s: State, es: seq<Event>)
    requires Nameless(s) && forall i | 0 <= i < |es| :: !Renews(es[i])
    ensures Nameless(After(s, es))
  {
    if es != [] {
      StaysNameless(s, es[..|es| - 1]);
      NamelessStep(After(s, es[..|es| - 1]), es[|es| - 1]);
    }
  }

  /**
   * A boot-once cleanup that deletes the last annotations it read nulls the annotation map, and with it an image URL
   * written since: from then on, through failed inserts and other ejects, a request for any image, the inserted one
   * included, is refused as a conflict, until an insert gets its patch through or the CD-ROM is ejected.
   */
  lemma WipedUrlReadsAsConflict(s: State, pvc: string, url: string, tag: string, c: InsertCalls, es: seq<Event>,
      asked: string)
    requires c.urlParses && Patched(c.attempts) && asked != ""
    requires forall i | 0 <= i < |es| :: !Renews(es[i])
    ensures Check(After(Next(Inserted(s, pvc, url, tag, c), UrlsWiped), es), CDROM, asked) == OtherMedia
  {
    var vs := TemplateOf(s).volumes;
    MountedIsFirst(vs, CDROM, pvc);
    NamedClaimIsClaimOf(WithClaim(vs, CDROM, pvc), CDROM, pvc);
    InsertedVm(s, pvc, url, tag, c);
    StaysNameless(Next(Inserted(s, pvc, url, tag, c), UrlsWiped), es);
  }
}
