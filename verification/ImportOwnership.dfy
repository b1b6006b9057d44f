/**
 * Who clears an importing label: runs of inserts, ejects, helper pods, claims and their completions,
 * interleaved in any order, with every API call free to fail and every notification free to be late,
 * repeated or lost.
 */
module ImportOwnership {
  import opened Text
  import opened ImportTags
  import opened ImportLabels
  import VirtualMedia

  /**
   * A namespace and what has existed in it: every pod and claim ever created, with `ended` and `bound`
   * recording whether it ever was. `primes` are the claims CDI made for itself. `cleanups` are the boot-once
   * cleanups between their read of a VM and their patch; they wipe if the VM read had only the boot-once label,
   * so that the patch nulls the whole label map.
   */
  datatype Ledger = Ledger(w: World, pods: map<string, Pod>, claims: map<string, Pvc>, primes: set<string>,
      cleanups: map<nat, Cleanup>)

  datatype Cleanup = Cleanup(vm: string, wipes: bool)

  datatype Event =
    | MakeHelperPod(claim: string, time: string, hash: string, vm: string, device: string)
    | MakeCdiPod(name: string, vm: string, device: string)
    | MakeClaim(name: string, vm: string, device: string, prime: bool)
    | PodEnds(name: string)
    | PodGone(name: string)
    | ClaimBinds(name: string)
    | ClaimGone(name: string)
    | TagPod(name: string)
    | TagClaim(name: string)
    | Eject(vm: string, device: string)
    | ReadForCleanup(id: nat, vm: string, otherLabels: bool)
    | CleanupPatch(id: nat)
    | HandlePod(name: string, calls: Calls)
    | HandleClaim(name: string, calls: Calls)

  /** Names are never used twice. A handler needs a pod that was seen ended, or a claim that was seen bound. */
  ghost predicate Enabled(l: Ledger, e: Event) {
    match e
    case MakeHelperPod(claim, time, hash, _, _) => |hash| == 5 && HelperPodName(claim, time, hash) !in l.pods
    case MakeCdiPod(name, _, _) => name !in l.pods
    case MakeClaim(name, _, _, _) => name !in l.claims
    case PodEnds(name) => name in l.pods && name in l.w.pods
    case PodGone(name) => name in l.w.pods
    case ClaimBinds(name) => name in l.claims && name in l.w.pvcs
    case ClaimGone(name) => name in l.w.pvcs
    case TagPod(name) => name in l.pods && !l.pods[name].cdiManaged
    case TagClaim(name) => name in l.claims && name !in l.primes
    case Eject(_, _) => true
    case ReadForCleanup(id, vm, _) => vm in l.w.vms && id !in l.cleanups
    case CleanupPatch(id) => id in l.cleanups && l.cleanups[id].vm in l.w.vms
    case HandlePod(name, _) => name in l.pods && l.pods[name].ended && !l.pods[name].cdiManaged
    case HandleClaim(name, _) => name in l.claims && l.claims[name].bound
  }

  ghost function PodMade(l: Ledger, name: string, pod: Pod): Ledger {
    l.(pods := l.pods[name := pod], w := l.w.(pods := l.w.pods[name := pod]))
  }

  ghost function Next(l: Ledger, e: Event): Ledger
    requires Enabled(l, e)
  {
    match e
    case MakeHelperPod(claim, time, hash, vm, device) =>
      PodMade(l, HelperPodName(claim, time, hash), Pod(vm, device, false, false))
    case MakeCdiPod(name, vm, device) => PodMade(l, name, Pod(vm, device, true, false))
    case MakeClaim(name, vm, device, prime) =>
      var claim := Pvc(vm, device, false);
      l.(claims := l.claims[name := claim], w := l.w.(pvcs := l.w.pvcs[name := claim]),
         primes := if prime then l.primes + {name} else l.primes)
    case PodEnds(name) => PodMade(l, name, l.pods[name].(ended := true))
    case PodGone(name) => l.(w := l.w.(pods := l.w.pods - {name}))
    case ClaimBinds(name) =>
      var claim := l.claims[name].(bound := true);
      l.(claims := l.claims[name := claim], w := l.w.(pvcs := l.w.pvcs[name := claim]))
    case ClaimGone(name) => l.(w := l.w.(pvcs := l.w.pvcs - {name}))
    case TagPod(name) => l.(w := Tagged(l.w, l.pods[name].vm, l.pods[name].device, name))
    case TagClaim(name) => l.(w := Tagged(l.w, l.claims[name].vm, l.claims[name].device, CdiTag(name)))
    case Eject(vm, device) => l.(w := Cleared(l.w, vm, device))
    case ReadForCleanup(id, vm, otherLabels) =>
      var read := l.w.vms[vm];
      l.(cleanups := l.cleanups[id := Cleanup(vm, !otherLabels && read.importing == map[] && read.power == "")])
    case CleanupPatch(id) =>
      var c := l.cleanups[id];
      var labels := if c.wipes then Labels(map[], "", false) else l.w.vms[c.vm].(bootOnce := false);
      l.(w := l.w.(vms := l.w.vms[c.vm := labels]), cleanups := l.cleanups - {id})
    case HandlePod(name, calls) => l.(w := PodCompleted(l.w, name, calls))
    case HandleClaim(name, calls) => l.(w := ClaimBound(l.w, name, l.claims[name].vm, l.claims[name].device, calls))
  }

  /** Nothing has been created and no VM carries an importing label. */
  ghost predicate Initial(l: Ledger) {
    && l.w.pods == map[] && l.w.pvcs == map[] && l.pods == map[] && l.claims == map[] && l.primes == {}
    && l.cleanups == map[]
    && forall vm | vm in l.w.vms :: l.w.vms[vm].importing == map[]
  }

  ghost predicate Run(ls: seq<Ledger>, es: seq<Event>) {
    && |ls| == |es| + 1
    && Initial(ls[0])
    && forall i | 0 <= i < |es| :: Enabled(ls[i], es[i]) && ls[i + 1] == Next(ls[i], es[i])
  }

  ghost predicate HasLabel(l: Ledger, vm: string, device: string) {
    vm in l.w.vms && device in l.w.vms[vm].importing
  }

  /** The step of an insert that sets the label. */
  ghost predicate Sets(l: Ledger, e: Event, vm: string, device: string) {
    match e
    case TagPod(name) => name in l.pods && l.pods[name].vm == vm && l.pods[name].device == device
    case TagClaim(name) => name in l.claims && l.claims[name].vm == vm && l.claims[name].device == device
    case _ => false
  }

  function TagSet(e: Event): string
    requires e.TagPod? || e.TagClaim?
  {
    if e.TagPod? then e.name else CdiTag(e.name)
  }

  // ----- What every run keeps -----

  /** Helper pods carry helper pod names; what exists agrees with what was created. */
  ghost predicate Consistent(l: Ledger) {
    && (forall n | n in l.pods && !l.pods[n].cdiManaged :: HasPrefix(n, POD_PREFIX))
    && (forall n | n in l.w.pods :: n in l.pods && l.w.pods[n] == l.pods[n])
  }

  lemma StepKeepsConsistent(l: Ledger, e: Event)
    requires Consistent(l) && Enabled(l, e)
    ensures Consistent(Next(l, e))
  {
    if e.MakeHelperPod? {
      PodNamesAreNoCdiTags(e.claim, e.time, e.hash);
    }
  }

  lemma {:induction false} RunKeepsConsistent(ls: seq<Ledger>, es: seq<Event>, k: nat)
    requires Run(ls, es) && k <= |es|
    ensures Consistent(ls[k])
  {
    if k > 0 {
      RunKeepsConsistent(ls, es, k - 1);
      StepKeepsConsistent(ls[k - 1], es[k - 1]);
    }
  }

  lemma {:induction false} EndedPodsEnded(ls: seq<Ledger>, es: seq<Event>, k: nat, name: string) returns (m: nat)
    requires Run(ls, es) && k <= |es| && name in ls[k].pods && ls[k].pods[name].ended
    ensures m < k && es[m] == PodEnds(name)
  {
    if name in ls[k - 1].pods && ls[k - 1].pods[name].ended {
      m := EndedPodsEnded(ls, es, k - 1, name);
    } else {
      m := k - 1;
    }
  }

  lemma {:induction false} BoundClaimsWereBound(ls: seq<Ledger>, es: seq<Event>, k: nat, name: string) returns (m: nat)
    requires Run(ls, es) && k <= |es| && name in ls[k].claims && ls[k].claims[name].bound
    ensures m < k && es[m] == ClaimBinds(name)
  {
    if name in ls[k - 1].claims && ls[k - 1].claims[name].bound {
      m := BoundClaimsWereBound(ls, es, k - 1, name);
    } else {
      m := k - 1;
    }
  }

  /** A step that leaves a label in place either set it or found it there with the same value. */
  lemma LabelStep(l: Ledger, e: Event, vm: string, device: string)
    requires Enabled(l, e) && HasLabel(Next(l, e), vm, device)
    ensures if Sets(l, e, vm, device) then TagOf(Next(l, e).w, vm, device) == TagSet(e)
            else HasLabel(l, vm, device) && TagOf(l.w, vm, device) == TagOf(Next(l, e).w, vm, device)
  {
  }

  // ----- Ejects -----

  /** The VM's labels and the namespace's pods in the other model of an eject. */
  ghost predicate Mirrors(l: Ledger, vm: string, s: VirtualMedia.State) {
    vm in l.w.vms && l.w.vms[vm].importing == s.labels && l.w.pods.Keys == s.pods
  }

  /**
   * The steps here that an eject takes: the pod named by the label goes, and then the label, as far as calls succeed.
   */
  ghost function EjectSteps(l: Ledger, vm: string, media: string, tag: string, c: VirtualMedia.EjectCalls): Ledger {
    if tag == "" then l
    else
      var stopped := if c.deletePod && Enabled(l, PodGone(tag)) then Next(l, PodGone(tag)) else l;
      if c.removeLabel then Next(stopped, Eject(vm, media)) else stopped
  }

  /** The eject of a device does to labels and pods what these steps do, and nothing to other VMs. */
  lemma EjectTakesTheseSteps(l: Ledger, vm: string, s: VirtualMedia.State, media: string, fallback: string,
      c: VirtualMedia.EjectCalls)
    requires Mirrors(l, vm, s) && VirtualMedia.EjectApplies(s, c)
    ensures var l' := EjectSteps(l, vm, media, VirtualMedia.LabelAt(s, media), c);
            && Mirrors(l', vm, VirtualMedia.Ejected(s, media, fallback, c))
            && l'.w.vms.Keys == l.w.vms.Keys && (forall x | x in l.w.vms && x != vm :: l'.w.vms[x] == l.w.vms[x])
            && l'.w.vms[vm].power == l.w.vms[vm].power && l'.w.vms[vm].bootOnce == l.w.vms[vm].bootOnce
  {
    VirtualMedia.EjectedImport(s, media, fallback, c);
  }

  /** Every label present was set by the latest insert step for its device, and is unchanged since. */
  lemma {:induction false} LabelOrigin(ls: seq<Ledger>, es: seq<Event>, k: nat, vm: string, device: string)
      returns (j: nat)
    requires Run(ls, es) && k <= |es| && HasLabel(ls[k], vm, device)
    ensures j < k && Sets(ls[j], es[j], vm, device)
    ensures forall i | j < i <= k :: HasLabel(ls[i], vm, device) && TagOf(ls[i].w, vm, device) == TagSet(es[j])
  {
    LabelStep(ls[k - 1], es[k - 1], vm, device);
    if Sets(ls[k - 1], es[k - 1], vm, device) {
      j := k - 1;
    } else {
      j := LabelOrigin(ls, es, k - 1, vm, device);
    }
  }

  // ----- Ownership -----

  /** The patch of a boot-once cleanup that nulls the VM's label map. */
  ghost predicate Wipes(l: Ledger, e: Event, vm: string) {
    e.CleanupPatch? && e.id in l.cleanups && l.cleanups[e.id] == Cleanup(vm, true)
  }

  /** The end of the import that set the label at step `j`: its own pod, or its own claim. */
  ghost predicate CompletionOf(setter: Event, e: Event) {
    match e
    case HandlePod(name, _) => setter == TagPod(name)
    case HandleClaim(name, _) => setter == TagClaim(name)
    case _ => false
  }

  ghost predicate Finishes(setter: Event, e: Event) {
    match setter
    case TagPod(name) => e == PodEnds(name)
    case TagClaim(name) => e == ClaimBinds(name)
    case _ => false
  }

  /**
   * A label that is gone or changed after step `k` was set by an import at some step `j`, and step `k` is a
   * newer import of the same device, an eject of it, or the completion of that very import, whose pod ended
   * or whose own claim was bound at an earlier step `m` - or it is a boot-once cleanup that had read the VM at
   * step `m`, before the label was set, when the VM had no label but boot-once.
   */
  lemma LabelIsClearedByItsOwner(ls: seq<Ledger>, es: seq<Event>, k: nat, vm: string, device: string)
      returns (j: nat, m: nat)
    requires Run(ls, es) && k < |es| && HasLabel(ls[k], vm, device)
    requires HasLabel(ls[k + 1], vm, device) ==> TagOf(ls[k + 1].w, vm, device) != TagOf(ls[k].w, vm, device)
    ensures j < k && Sets(ls[j], es[j], vm, device)
    ensures forall i | j < i <= k :: HasLabel(ls[i], vm, device) && TagOf(ls[i].w, vm, device) == TagSet(es[j])
    ensures Sets(ls[k], es[k], vm, device) || es[k] == Eject(vm, device) ||
            (CompletionOf(es[j], es[k]) && m < k && Finishes(es[j], es[m])) ||
            (Wipes(ls[k], es[k], vm) && m <= j && es[m] == ReadForCleanup(es[k].id, vm, false)
                && ls[m].w.vms[vm].power == "")
  {
    j := LabelOrigin(ls, es, k, vm, device);
    m := 0;
    RunKeepsConsistent(ls, es, j);
    RunKeepsConsistent(ls, es, k);
    TagKinds(ls[j], es[j]);
    ChangingStep(ls[k], es[k], es[j], vm, device);
    if es[k].HandlePod? {
      m := EndedPodsEnded(ls, es, k, es[k].name);
    } else if es[k].HandleClaim? {
      m := BoundClaimsWereBound(ls, es, k, es[k].name);
    } else if Wipes(ls[k], es[k], vm) {
      m := CleanupRead(ls, es, k, es[k].id, vm, device);
    }
  }

  /** A cleanup that nulls the label map read the VM without any other label. */
  lemma {:induction false} CleanupRead(ls: seq<Ledger>, es: seq<Event>, k: nat, id: nat, vm: string, device: string)
      returns (m: nat)
    requires Run(ls, es) && k <= |es| && id in ls[k].cleanups && ls[k].cleanups[id] == Cleanup(vm, true)
    ensures m < k && es[m] == ReadForCleanup(id, vm, false)
    ensures vm in ls[m].w.vms && !HasLabel(ls[m], vm, device) && ls[m].w.vms[vm].power == ""
  {
    assert Enabled(ls[k - 1], es[k - 1]) && ls[k] == Next(ls[k - 1], es[k - 1]);
    if es[k - 1].ReadForCleanup? && es[k - 1].id == id {
      m := k - 1;
    } else {
      m := CleanupRead(ls, es, k - 1, id, vm, device);
    }
  }

  /** The steps that can change a label, given the step that set it. */
  lemma ChangingStep(l: Ledger, e: Event, setter: Event, vm: string, device: string)
    requires Enabled(l, e) && HasLabel(l, vm, device)
    requires setter.TagPod? || setter.TagClaim?
    requires setter.TagPod? ==> !HasPrefix(setter.name, CDI_PREFIX)
    requires setter.TagClaim? && e.HandlePod? ==> e.name != TagSet(setter)
    requires TagOf(l.w, vm, device) == TagSet(setter)
    requires HasLabel(Next(l, e), vm, device) ==> TagOf(Next(l, e).w, vm, device) != TagSet(setter)
    ensures Sets(l, e, vm, device) || e == Eject(vm, device) || CompletionOf(setter, e) ||
            Wipes(l, e, vm)
  {
    if setter.TagClaim? {
      assert TagSet(setter)[|CDI_PREFIX|..] == setter.name;
    }
  }

  lemma TagKinds(l: Ledger, e: Event)
    requires Consistent(l) && Enabled(l, e) && (e.TagPod? || e.TagClaim?)
    ensures e.TagPod? ==> HasPrefix(TagSet(e), POD_PREFIX) && !HasPrefix(TagSet(e), CDI_PREFIX)
    ensures e.TagClaim? ==>
              HasPrefix(TagSet(e), CDI_PREFIX) && !HasPrefix(TagSet(e), POD_PREFIX) && TagSet(e)[4..] == e.name
  {
    if e.TagPod? {
      assert e.name[..9] == POD_PREFIX;
      assert e.name[1] == 'o';
    } else {
      assert TagSet(e)[1] == 'd';
    }
  }

  /** CDI's own claims carry the labels of the claim they populate; their binding clears nothing. */
  lemma PrimeClaimsClearNothing(ls: seq<Ledger>, es: seq<Event>, k: nat)
    requires Run(ls, es) && k < |es| && es[k].HandleClaim? && es[k].name in ls[k].primes
    ensures ls[k + 1].w == ls[k].w
  {
    var claim := ls[k].claims[es[k].name];
    if HasLabel(ls[k], claim.vm, claim.device) {
      var j := LabelOrigin(ls, es, k, claim.vm, claim.device);
      RunKeepsConsistent(ls, es, j);
      TagKinds(ls[j], es[j]);
      PrimesStay(ls, es, j, k, es[k].name);
    }
  }

  lemma {:induction false} PrimesStay(ls: seq<Ledger>, es: seq<Event>, j: nat, k: nat, name: string)
    requires Run(ls, es) && j <= k <= |es| && name in ls[k].primes
    ensures name in ls[j].primes || name !in ls[j].claims
  {
    if j < k && name in ls[k - 1].primes {
      PrimesStay(ls, es, j, k - 1, name);
    } else if j < k {
      ClaimsAccumulate(ls, es, j, k - 1, name);
    }
  }

  lemma {:induction false} ClaimsAccumulate(ls: seq<Ledger>, es: seq<Event>, j: nat, k: nat, name: string)
    requires Run(ls, es) && j <= k <= |es| && name !in ls[k].claims
    ensures name !in ls[j].claims
  {
    if j < k {
      ClaimsAccumulate(ls, es, j, k - 1, name);
    }
  }

  // ----- The order that is not recovered -----

  ghost predicate Orphaned(l: Ledger, vm: string, device: string, pod: string) {
    && HasLabel(l, vm, device) && TagOf(l.w, vm, device) == pod
    && pod in l.pods && pod !in l.w.pods
  }

  lemma OrphanStep(l: Ledger, e: Event, vm: string, device: string, pod: string)
    requires Enabled(l, e) && Orphaned(l, vm, device, pod) && !HasPrefix(pod, CDI_PREFIX)
    requires e != Eject(vm, device) && !Sets(l, e, vm, device) && !Wipes(l, e, vm)
    ensures Orphaned(Next(l, e), vm, device, pod)
  {
  }

  /**
   * A label whose pod is gone is one that no completion and no sweep ever clears: it stays until an eject of the
   * device, a newer import or a boot-once cleanup that wipes the VM's labels.
   */
  lemma {:induction false} OrphanedLabelStays(ls: seq<Ledger>, es: seq<Event>, j: nat, k: nat, vm: string,
      device: string, pod: string)
    requires Run(ls, es) && j <= k <= |es| && Orphaned(ls[j], vm, device, pod) && !HasPrefix(pod, CDI_PREFIX)
    requires forall i | j <= i < k ::
               es[i] != Eject(vm, device) && !Sets(ls[i], es[i], vm, device) && !Wipes(ls[i], es[i], vm)
    ensures Orphaned(ls[k], vm, device, pod)
  {
    if k > j {
      OrphanedLabelStays(ls, es, j, k - 1, vm, device, pod);
      OrphanStep(ls[k - 1], es[k - 1], vm, device, pod);
    }
  }

  /**
   * Steps after which the pod is gone and its label is not: someone deletes it, or its completion deletes it and then
   * fails.
   */
  ghost predicate LosesPod(e: Event, pod: string) {
    match e
    case PodGone(name) => name == pod
    case HandlePod(name, calls) => name == pod && calls.deletePod && !(calls.getVm && calls.patch)
    case _ => false
  }

  ghost predicate Labelled(l: Ledger, vm: string, device: string, pod: string) {
    HasLabel(l, vm, device) && TagOf(l.w, vm, device) == pod
  }

  ghost predicate MadeFor(l: Ledger, vm: string, device: string, pod: string) {
    pod in l.pods && l.pods[pod].vm == vm && l.pods[pod].device == device
  }

  lemma PodStep(l: Ledger, e: Event, vm: string, device: string, pod: string)
    requires Enabled(l, e) && Consistent(l) && vm != "" && device != ""
    requires MadeFor(l, vm, device, pod) && Labelled(l, vm, device, pod) && Labelled(Next(l, e), vm, device, pod)
    ensures MadeFor(Next(l, e), vm, device, pod)
    ensures pod in Next(l, e).w.pods <==> pod in l.w.pods && !LosesPod(e, pod)
  {
  }

  /**
   * A label set by a helper pod's import and still in place is orphaned exactly if the pod was gone before the
   * label was set, or was deleted since, by someone else or by its own completion handler before that failed.
   */
  lemma {:induction false} LabelOrphanedIff(ls: seq<Ledger>, es: seq<Event>, j: nat, k: nat, vm: string, device: string)
    requires Run(ls, es) && j < k <= |es| && vm != "" && device != ""
    requires es[j].TagPod? && Sets(ls[j], es[j], vm, device)
    requires forall i | j < i <= k :: Labelled(ls[i], vm, device, es[j].name)
    ensures Orphaned(ls[k], vm, device, es[j].name) <==>
            es[j].name !in ls[j].w.pods || exists i | j < i < k :: LosesPod(es[i], es[j].name)
  {
    var pod := es[j].name;
    TaggingStep(ls[j], es[j], vm, device);
    forall i | j < i < k
      ensures PodStepIs(ls, es, i, pod)
    {
      MadeForStays(ls, es, j + 1, i, vm, device, pod);
      assert Labelled(ls[i], vm, device, pod) && Labelled(ls[i + 1], vm, device, pod);
      PodStepInRun(ls, es, i, vm, device, pod);
    }
    PodLostIff(ls, es, j, k, pod);
    MadeForStays(ls, es, j + 1, k, vm, device, pod);
    assert Labelled(ls[k], vm, device, pod);
  }

  ghost predicate PodStepIs(ls: seq<Ledger>, es: seq<Event>, i: nat, pod: string)
    requires i < |es| && i + 1 < |ls|
  {
    pod in ls[i + 1].w.pods <==> pod in ls[i].w.pods && !LosesPod(es[i], pod)
  }

  lemma {:induction false} PodLostIff(ls: seq<Ledger>, es: seq<Event>, j: nat, k: nat, pod: string)
    requires j < k <= |es| && |ls| == |es| + 1
    requires forall i | j < i < k :: PodStepIs(ls, es, i, pod)
    ensures pod in ls[k].w.pods <==> pod in ls[j + 1].w.pods && !exists i | j < i < k :: LosesPod(es[i], pod)
  {
    if k > j + 1 {
      PodLostIff(ls, es, j, k - 1, pod);
      assert PodStepIs(ls, es, k - 1, pod);
    }
  }

  lemma {:induction false} MadeForStays(ls: seq<Ledger>, es: seq<Event>, j: nat, k: nat, vm: string, device: string,
      pod: string)
    requires Run(ls, es) && j <= k <= |es| && MadeFor(ls[j], vm, device, pod)
    ensures MadeFor(ls[k], vm, device, pod)
  {
    if k > j {
      MadeForStays(ls, es, j, k - 1, vm, device, pod);
    }
  }

  lemma PodStepInRun(ls: seq<Ledger>, es: seq<Event>, k: nat, vm: string, device: string, pod: string)
    requires Run(ls, es) && k < |es| && vm != "" && device != ""
    requires MadeFor(ls[k], vm, device, pod) && Labelled(ls[k], vm, device, pod) && Labelled(ls[k + 1], vm, device, pod)
    ensures PodStepIs(ls, es, k, pod)
  {
    RunKeepsConsistent(ls, es, k);
    PodStep(ls[k], es[k], vm, device, pod);
  }

  lemma TaggingStep(l: Ledger, e: Event, vm: string, device: string)
    requires Enabled(l, e) && e.TagPod? && Sets(l, e, vm, device)
    ensures MadeFor(Next(l, e), vm, device, e.name) && (e.name in Next(l, e).w.pods <==> e.name in l.w.pods)
  {
  }
}
