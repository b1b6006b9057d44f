/** Names of helper pods and the tags that importing labels carry. */
module ImportTags {
  import opened Text

  const POD_PREFIX := "copy-iso-"
  const CDI_PREFIX := "cdi-"

  /** sanitizeResourceName; `hash` is the five-character digest of the full name. */
  function Sanitize(name: string, hash: string): (r: string)
    requires |hash| == 5
    ensures |r| <= 63
  {
    if |name| <= 63 then name else name[..49] + hash + "truncated"
  }

  function HelperPodName(claim: string, timestamp: string, hash: string): string
    requires |hash| == 5
  {
    Sanitize(POD_PREFIX + claim + "-" + timestamp, hash)
  }

  function CdiTag(claim: string): string {
    CDI_PREFIX + claim
  }

  /** Sanitizing keeps the prefix, so no helper pod name is a CDI tag, whatever claim, time and digest. */
  lemma PodNamesAreNoCdiTags(claim: string, timestamp: string, hash: string)
    requires |hash| == 5
    ensures var pod := HelperPodName(claim, timestamp, hash);
            HasPrefix(pod, POD_PREFIX) && !HasPrefix(pod, CDI_PREFIX) && forall c :: pod != CdiTag(c)
  {
    var full := POD_PREFIX + claim + "-" + timestamp;
    var pod := HelperPodName(claim, timestamp, hash);
    assert full[..9] == POD_PREFIX;
    assert pod[..9] == POD_PREFIX;
    assert pod[1] == 'o';
    assert forall c :: CdiTag(c)[1] == 'd';
  }
}

/** The importing and power labels of the VMs in a namespace, and the handlers that clear them. */
module ImportLabels {
  import opened Text
  import opened ImportTags

  /** `importing` maps devices to tags, `power` is the parked command ("" for none), `bootOnce` the boot-once label. */
  datatype Labels = Labels(importing: map<string, string>, power: string, bootOnce: bool)

  datatype Pod = Pod(vm: string, device: string, cdiManaged: bool, ended: bool)

  /** `vm` and `device` are the labels on the claim, "" where a claim has none. */
  datatype Pvc = Pvc(vm: string, device: string, bound: bool)

  datatype Issued = Issued(vm: string, command: string)

  datatype World = World(vms: map<string, Labels>, pods: map<string, Pod>, pvcs: map<string, Pvc>, issued: seq<Issued>)

  function TagOf(w: World, vm: string, device: string): string {
    if vm in w.vms && device in w.vms[vm].importing then w.vms[vm].importing[device] else ""
  }

  function Cleared(w: World, vm: string, device: string): World {
    if vm in w.vms then w.(vms := w.vms[vm := w.vms[vm].(importing := w.vms[vm].importing - {device})]) else w
  }

  function Tagged(w: World, vm: string, device: string, tag: string): World {
    if vm in w.vms then w.(vms := w.vms[vm := w.vms[vm].(importing := w.vms[vm].importing[device := tag])]) else w
  }

  /** Which API calls of a handler succeed. */
  datatype Calls = Calls(deletePod: bool, getVm: bool, patch: bool)

  /** handleImportPodCompleted, which fetches the pod again first. */
  function PodCompleted(w: World, name: string, c: Calls): World {
    if name !in w.pods || w.pods[name].vm == "" || w.pods[name].device == "" then w
    else
      var pod := w.pods[name];
      var deleted := if c.deletePod then w.(pods := w.pods - {name}) else w;
      if c.getVm && TagOf(w, pod.vm, pod.device) == name && c.patch then Cleared(deleted, pod.vm, pod.device)
      else deleted
  }

  /** handleCDIPVCBound on a claim of this name that carries the labels `vm` and `device`. */
  function ClaimBound(w: World, name: string, vm: string, device: string, c: Calls): World {
    if vm == "" || device == "" || !c.getVm then w
    else
      var tag := TagOf(w, vm, device);
      if HasPrefix(tag, CDI_PREFIX) && name == tag[|CDI_PREFIX|..] && c.patch then Cleared(w, vm, device) else w
  }

  /** handlePowerAfterImport. */
  function PowerHandled(w: World, vm: string): World
    requires vm in w.vms
  {
    var l := w.vms[vm];
    if l.power != "" && l.importing == map[] then
      w.(vms := w.vms[vm := l.(power := "")], issued := w.issued + [Issued(vm, l.power)])
    else w
  }

  /** Which API calls of handleVMUpdate succeed. */
  datatype VmCalls = VmCalls(getVm: bool, removePower: bool)

  predicate Reached(c: VmCalls) {
    c.getVm && c.removePower
  }

  /** handleVMUpdate; `rebooted` says that the boot-once half finds a new instance and gets its cleanup through. */
  function VmHandled(w: World, vm: string, rebooted: bool, c: VmCalls): World
    requires vm in w.vms
  {
    var powered := if Reached(c) then PowerHandled(w, vm) else w;
    if c.getVm && powered.vms[vm].bootOnce && rebooted then
      powered.(vms := powered.vms[vm := powered.vms[vm].(bootOnce := false)])
    else powered
  }

  // ----- Sweeps -----

  /** The label waits for a claim that is bound and labelled for this device. */
  predicate ClaimDone(w: World, vm: string, device: string) {
    var tag := TagOf(w, vm, device);
    && vm != "" && device != "" && HasPrefix(tag, CDI_PREFIX)
    && tag[|CDI_PREFIX|..] in w.pvcs
    && w.pvcs[tag[|CDI_PREFIX|..]] == Pvc(vm, device, true)
  }

  /** The outcomes of a sweep's API calls, by the name of the pod or claim they are made for. */
  type Outcomes = string -> Calls

  predicate ClaimHandled(w: World, calls: Outcomes, vm: string, device: string) {
    ClaimDone(w, vm, device) &&
    var c := calls(TagOf(w, vm, device)[|CDI_PREFIX|..]);
    c.getVm && c.patch
  }

  predicate PodHandled(w: World, calls: Outcomes, vm: string, device: string) {
    PodDone(w, vm, device) && calls(TagOf(w, vm, device)).getVm && calls(TagOf(w, vm, device)).patch
  }

  /** The label waits for a helper pod that has ended. */
  predicate PodDone(w: World, vm: string, device: string) {
    var tag := TagOf(w, vm, device);
    vm != "" && device != "" && tag in w.pods && w.pods[tag] == Pod(vm, device, false, true)
  }

  function WithoutDone(l: Labels, done: set<string>): Labels {
    l.(importing := l.importing - done)
  }

  function AfterClaimSweep(w: World, calls: Outcomes): World {
    w.(vms := map vm | vm in w.vms ::
        WithoutDone(w.vms[vm], set d | d in w.vms[vm].importing && ClaimHandled(w, calls, vm, d)))
  }

  predicate PodFinished(p: Pod) {
    p.ended && !p.cdiManaged && p.vm != "" && p.device != ""
  }

  function AfterPodSweep(w: World, calls: Outcomes): World {
    w.(vms := map vm | vm in w.vms ::
        WithoutDone(w.vms[vm], set d | d in w.vms[vm].importing && PodHandled(w, calls, vm, d)),
       pods := map n | n in w.pods && !(PodFinished(w.pods[n]) && calls(n).deletePod) :: w.pods[n])
  }

  predicate Carries(l: Labels) {
    l.bootOnce || l.power != ""
  }

  /**
   * At most this label is gone, and exactly if `gone`; all other labels, commands, claims and the log are as before.
   */
  ghost predicate OnlyLabelGone(before: World, after: World, vm: string, device: string, gone: bool) {
    && after.vms.Keys == before.vms.Keys && after.pvcs == before.pvcs && after.issued == before.issued
    && forall v | v in before.vms ::
         && after.vms[v].power == before.vms[v].power && after.vms[v].bootOnce == before.vms[v].bootOnce
         && after.vms[v].importing.Keys == before.vms[v].importing.Keys - (if gone && v == vm then {device} else {})
         && forall d | d in after.vms[v].importing :: after.vms[v].importing[d] == before.vms[v].importing[d]
  }

  class Namespace {
    var w: World

    constructor (w: World)
      ensures this.w == w
    {
      this.w := w;
    }

    method HandleImportPodCompleted(name: string, c: Calls)
      modifies this
      ensures w == PodCompleted(old(w), name, c)
      ensures if name in old(w).pods && old(w).pods[name].vm != "" && old(w).pods[name].device != "" then
                var pod := old(w).pods[name];
                && w.pods == (if c.deletePod then old(w).pods - {name} else old(w).pods)
                && OnlyLabelGone(old(w), w, pod.vm, pod.device,
                                 c.getVm && c.patch && TagOf(old(w), pod.vm, pod.device) == name)
              else w == old(w)
    {
      if name !in w.pods {
        return;
      }
      var pod := w.pods[name];
      if pod.vm == "" || pod.device == "" {
        return;
      }
      if c.deletePod {
        w := w.(pods := w.pods - {name});
      }
      if !c.getVm {
        return;
      }
      var current := TagOf(w, pod.vm, pod.device);
      if current != name {
        return;
      }
      if c.patch {
        w := Cleared(w, pod.vm, pod.device);
      }
    }

    method HandleCdiPvcBound(name: string, vm: string, device: string, c: Calls)
      modifies this
      ensures w == ClaimBound(old(w), name, vm, device, c)
      ensures w.pods == old(w).pods
      ensures OnlyLabelGone(old(w), w, vm, device,
                            vm != "" && device != "" && c.getVm && c.patch && TagOf(old(w), vm, device) == CdiTag(name))
    {
      if vm == "" || device == "" || !c.getVm {
        return;
      }
      var tag := TagOf(w, vm, device);
      if !HasPrefix(tag, CDI_PREFIX) {
        return;
      }
      var expected := tag[|CDI_PREFIX|..];
      assert tag == CDI_PREFIX + expected;
      if name != expected {
        return;
      }
      if c.patch {
        w := Cleared(w, vm, device);
      }
    }

    /** reconcileExistingCDIPVCs; the list comes in any order. */
    method ReconcileClaims(calls: Outcomes)
      modifies this
      ensures w == AfterClaimSweep(old(w), calls)
    {
      ghost var start := w;
      var todo := w.pvcs.Keys;
      SweptEnds(w, calls);
      while todo != {}
        invariant todo <= start.pvcs.Keys
        invariant w == Swept(start, todo, calls)
        decreases todo
      {
        var name :| name in todo;
        SweptStep(start, todo, calls, name);
        todo := todo - {name};
        if w.pvcs[name].bound {
          HandleCdiPvcBound(name, w.pvcs[name].vm, w.pvcs[name].device, calls(name));
        }
      }
    }

    /** reconcileExistingImportPods; it skips the pods of CDI. */
    method ReconcilePods(calls: Outcomes)
      modifies this
      ensures w == AfterPodSweep(old(w), calls)
    {
      ghost var start := w;
      var listed := w.pods;
      var todo := listed.Keys;
      PodsSweptEnds(w, calls);
      while todo != {}
        invariant todo <= listed.Keys && listed == start.pods
        invariant w == PodsSwept(start, todo, calls)
        decreases todo
      {
        var name :| name in todo;
        PodsSweptStep(start, todo, calls, name);
        todo := todo - {name};
        if !listed[name].cdiManaged && listed[name].ended {
          HandleImportPodCompleted(name, calls(name));
        }
      }
    }

    method HandleVmUpdate(vm: string, rebooted: bool, c: VmCalls)
      requires vm in w.vms
      modifies this
      ensures w == VmHandled(old(w), vm, rebooted, c)
      ensures w.vms.Keys == old(w).vms.Keys && w.pods == old(w).pods && w.pvcs == old(w).pvcs
      ensures forall v | v in w.vms && v != vm :: w.vms[v] == old(w).vms[v]
      ensures var l := old(w).vms[vm];
              var released := Reached(c) && l.power != "" && forall d :: d !in l.importing;
              && w.vms[vm].importing == l.importing
              && (w.vms[vm].bootOnce <==> l.bootOnce && !(rebooted && c.getVm))
              && w.vms[vm].power == (if released then "" else l.power)
              && w.issued == old(w).issued + (if released then [Issued(vm, l.power)] else [])
    {
      if !c.getVm {
        return;
      }
      if w.vms[vm].power != "" {
        HandlePowerAfterImport(vm, c.removePower);
      }
      if w.vms[vm].bootOnce && rebooted {
        w := w.(vms := w.vms[vm := w.vms[vm].(bootOnce := false)]);
      }
    }

    method HandlePowerAfterImport(vm: string, removeOk: bool)
      requires vm in w.vms
      modifies this
      ensures w == if removeOk then PowerHandled(old(w), vm) else old(w)
    {
      var command := w.vms[vm].power;
      if command == "" || w.vms[vm].importing != map[] || !removeOk {
        return;
      }
      w := w.(vms := w.vms[vm := w.vms[vm].(power := "")]);
      w := w.(issued := w.issued + [Issued(vm, command)]);
    }

    /** One loop of the VM sweep: the handler for each VM of a list, which may come in any order. */
    method HandleListed(list: set<string>, rebooted: set<string>, calls: string -> VmCalls)
        returns (handled: seq<string>)
      requires list <= w.vms.Keys
      modifies this
      ensures Distinct(handled) && forall vm :: vm in handled <==> vm in list
      ensures w == AllHandled(old(w), handled, rebooted, calls)
    {
      handled := [];
      var todo := list;
      while todo != {}
        invariant todo <= list && Distinct(handled)
        invariant forall vm :: vm in handled <==> vm in list - todo
        invariant w == AllHandled(old(w), handled, rebooted, calls)
        decreases todo
      {
        var vm :| vm in todo;
        todo := todo - {vm};
        HandleVmUpdate(vm, vm in rebooted, calls(vm));
        DistinctSnoc(handled, vm);
        assert (handled + [vm])[..|handled|] == handled;
        handled := handled + [vm];
      }
    }

    /**
     * reconcileExistingBootOnceVMs: first the boot-once VMs, then the VMs with a parked command that were not
     * processed yet; a list call that fails ends the sweep. `handled` is the order of the handler calls.
     */
    method ReconcileVms(listArmed: bool, listParked: bool, rebooted: set<string>, calls: string -> VmCalls)
        returns (handled: seq<string>, ok: bool)
      modifies this
      ensures ok == (listArmed && listParked) && Distinct(handled)
      ensures forall vm :: vm in handled <==>
                           listArmed && vm in old(w).vms && Carries(old(w).vms[vm])
                           && (old(w).vms[vm].bootOnce || listParked)
      ensures w == AllHandled(old(w), handled, rebooted, calls)
    {
      if !listArmed {
        return [], false;
      }
      var processed := set vm | vm in w.vms && w.vms[vm].bootOnce;
      var first := HandleListed(processed, rebooted, calls);
      if !listParked {
        return first, false;
      }
      OthersUntouched(old(w), first, rebooted, calls);
      var parked := set vm | vm in w.vms && w.vms[vm].power != "" && vm !in processed;
      var second := HandleListed(parked, rebooted, calls);
      AllHandledConcat(old(w), first, second, rebooted, calls);
      DistinctConcat(first, second);
      return first + second, true;
    }
  }

  lemma DistinctSnoc(s: seq<string>, x: string)
    requires Distinct(s) && x !in s
    ensures Distinct(s + [x])
  {
  }

  lemma DistinctConcat(s: seq<string>, t: seq<string>)
    requires Distinct(s) && Distinct(t) && forall x | x in s :: x !in t
    ensures Distinct(s + t)
  {
    forall i, j | 0 <= i < j < |s + t|
      ensures (s + t)[i] != (s + t)[j]
    {
      if i < |s| <= j {
        assert s[i] in s && t[j - |s|] in t;
      }
    }
  }

  lemma SweptEnds(w: World, calls: Outcomes)
    ensures Swept(w, w.pvcs.Keys, calls) == w && Swept(w, {}, calls) == AfterClaimSweep(w, calls)
  {
    var all := Swept(w, w.pvcs.Keys, calls);
    forall vm | vm in w.vms
      ensures all.vms[vm] == w.vms[vm] && Swept(w, {}, calls).vms[vm] == AfterClaimSweep(w, calls).vms[vm]
    {
      assert all.vms[vm].importing == w.vms[vm].importing;
      assert Swept(w, {}, calls).vms[vm].importing == AfterClaimSweep(w, calls).vms[vm].importing;
    }
    assert all.vms == w.vms;
  }

  /** The claim sweep with the claims in `todo` still to come. */
  ghost function Swept(w: World, todo: set<string>, calls: Outcomes): World {
    w.(vms := map vm | vm in w.vms ::
       WithoutDone(w.vms[vm], set d | d in w.vms[vm].importing && ClaimHandled(w, calls, vm, d)
           && w.vms[vm].importing[d][|CDI_PREFIX|..] !in todo))
  }

  lemma SweptStep(w: World, todo: set<string>, calls: Outcomes, name: string)
    requires name in todo && name in w.pvcs
    ensures var s := Swept(w, todo, calls);
            Swept(w, todo - {name}, calls) ==
            if w.pvcs[name].bound then ClaimBound(s, name, w.pvcs[name].vm, w.pvcs[name].device, calls(name)) else s
  {
    var s, t, claim := Swept(w, todo, calls), Swept(w, todo - {name}, calls), w.pvcs[name];
    var u := if claim.bound then ClaimBound(s, name, claim.vm, claim.device, calls(name)) else s;
    forall vm | vm in w.vms
      ensures t.vms[vm].importing == u.vms[vm].importing
    {
      assert TagOf(s, claim.vm, claim.device) in {"", TagOf(w, claim.vm, claim.device)};
    }
    assert t.vms == u.vms;
  }

  /** The pod sweep with the pods in `todo` still to come. */
  ghost function PodsSwept(w: World, todo: set<string>, calls: Outcomes): World {
    w.(vms := map vm | vm in w.vms ::
       WithoutDone(w.vms[vm], set d | d in w.vms[vm].importing && PodHandled(w, calls, vm, d)
           && w.vms[vm].importing[d] !in todo),
       pods := map n | n in w.pods && (n in todo || !(PodFinished(w.pods[n]) && calls(n).deletePod)) :: w.pods[n])
  }

  lemma PodsSweptStep(w: World, todo: set<string>, calls: Outcomes, name: string)
    requires name in todo && name in w.pods
    ensures var s, pod := PodsSwept(w, todo, calls), w.pods[name];
            PodsSwept(w, todo - {name}, calls) ==
            if !pod.cdiManaged && pod.ended then PodCompleted(s, name, calls(name)) else s
  {
    var s, t, pod := PodsSwept(w, todo, calls), PodsSwept(w, todo - {name}, calls), w.pods[name];
    var u := if !pod.cdiManaged && pod.ended then PodCompleted(s, name, calls(name)) else s;
    PodsLeft(w, todo, calls, name);
    forall vm | vm in w.vms
      ensures t.vms[vm] == u.vms[vm]
    {
      PodStepAt(w, todo, calls, name, vm);
      PodCompletedAt(s, name, calls(name), vm);
    }
    assert t.vms == u.vms;
  }

  lemma PodsLeft(w: World, todo: set<string>, calls: Outcomes, name: string)
    requires name in todo && name in w.pods
    ensures name in PodsSwept(w, todo, calls).pods && PodsSwept(w, todo, calls).pods[name] == w.pods[name]
    ensures PodsSwept(w, todo - {name}, calls).pods ==
            PodsSwept(w, todo, calls).pods - (if PodFinished(w.pods[name]) && calls(name).deletePod then {name} else {})
  {
  }

  lemma PodCompletedAt(s: World, name: string, c: Calls, vm: string)
    requires name in s.pods && vm in s.vms
    ensures var pod, u, l := s.pods[name], PodCompleted(s, name, c), s.vms[vm];
            && u.vms.Keys == s.vms.Keys && u.pvcs == s.pvcs && u.issued == s.issued
            && u.pods == s.pods - (if pod.vm != "" && pod.device != "" && c.deletePod then {name} else {})
            && u.vms[vm] ==
               if pod.vm == vm && pod.vm != "" && pod.device != "" && c.getVm && c.patch
                  && pod.device in l.importing && l.importing[pod.device] == name
               then l.(importing := l.importing - {pod.device}) else l
  {
    assert s.pods - {} == s.pods;
    assert forall l: Labels, d | d !in l.importing :: l.importing - {d} == l.importing;
  }

  predicate Clearing(p: Pod, c: Calls) {
    PodFinished(p) && c.getVm && c.patch
  }

  lemma PodStepAt(w: World, todo: set<string>, calls: Outcomes, name: string, vm: string)
    requires name in todo && name in w.pods && vm in w.vms
    ensures var pod := w.pods[name];
            var before, after := PodsSwept(w, todo, calls).vms[vm], PodsSwept(w, todo - {name}, calls).vms[vm];
            if Clearing(pod, calls(name)) && pod.vm == vm && pod.device in before.importing
                && before.importing[pod.device] == name then
              after == before.(importing := before.importing - {pod.device})
            else after == before
  {
    var pod := w.pods[name];
    var before, after := PodsSwept(w, todo, calls).vms[vm], PodsSwept(w, todo - {name}, calls).vms[vm];
    forall d | d in w.vms[vm].importing
      ensures PodDone(w, vm, d) && w.vms[vm].importing[d] == name ==>
          PodFinished(pod) && pod.vm == vm && pod.device == d
    {
    }
    if Clearing(pod, calls(name)) && pod.vm == vm && pod.device in before.importing
        && before.importing[pod.device] == name {
      assert after.importing == before.importing - {pod.device};
    } else {
      assert after.importing == before.importing;
    }
  }

  lemma PodsSweptEnds(w: World, calls: Outcomes)
    ensures PodsSwept(w, w.pods.Keys, calls) == w && PodsSwept(w, {}, calls) == AfterPodSweep(w, calls)
  {
    var all := PodsSwept(w, w.pods.Keys, calls);
    forall vm | vm in w.vms
      ensures all.vms[vm] == w.vms[vm] && PodsSwept(w, {}, calls).vms[vm] == AfterPodSweep(w, calls).vms[vm]
    {
      assert all.vms[vm].importing == w.vms[vm].importing;
      assert PodsSwept(w, {}, calls).vms[vm].importing == AfterPodSweep(w, calls).vms[vm].importing;
    }
    assert all.vms == w.vms;
    assert all.pods == w.pods;
    assert PodsSwept(w, {}, calls).pods == AfterPodSweep(w, calls).pods;
  }

  /** The handler run over the VMs in this order. */
  ghost function AllHandled(w: World, order: seq<string>, rebooted: set<string>, calls: string -> VmCalls): (r: World)
    ensures r.vms.Keys == w.vms.Keys && r.pods == w.pods && r.pvcs == w.pvcs
  {
    if order == [] then w
    else
      var before := AllHandled(w, order[..|order| - 1], rebooted, calls);
      var vm := order[|order| - 1];
      if vm in before.vms then VmHandled(before, vm, vm in rebooted, calls(vm)) else before
  }

  lemma {:induction false} OthersUntouched(w: World, order: seq<string>, rebooted: set<string>,
      calls: string -> VmCalls)
    ensures forall vm | vm in w.vms && vm !in order :: AllHandled(w, order, rebooted, calls).vms[vm] == w.vms[vm]
  {
    if order != [] {
      OthersUntouched(w, order[..|order| - 1], rebooted, calls);
    }
  }

  lemma {:induction false} AllHandledConcat(w: World, first: seq<string>, second: seq<string>, rebooted: set<string>,
      calls: string -> VmCalls)
    ensures AllHandled(w, first + second, rebooted, calls) ==
        AllHandled(AllHandled(w, first, rebooted, calls), second, rebooted, calls)
  {
    if second == [] {
      assert first + second == first;
    } else {
      var n := |second| - 1;
      AllHandledConcat(w, first, second[..n], rebooted, calls);
      assert (first + second)[..|first| + n] == first + second[..n];
    }
  }

  // ----- Recovery -----

  /** The commands issued for a VM, oldest first. */
  ghost function CommandsFor(log: seq<Issued>, vm: string): seq<string> {
    if log == [] then []
    else
      var last := log[|log| - 1];
      CommandsFor(log[..|log| - 1], vm) + if last.vm == vm then [last.command] else []
  }

  /** After a sweep of claims and a sweep of pods, exactly the labels whose import is not done remain. */
  lemma SweepsClearExactlyTheDone(w: World, calls: Outcomes, vm: string)
    requires vm in w.vms
    ensures var after := AfterPodSweep(AfterClaimSweep(w, calls), calls);
            && vm in after.vms && after.vms[vm].power == w.vms[vm].power && after.vms[vm].bootOnce == w.vms[vm].bootOnce
            && (forall d | d in after.vms[vm].importing ::
                  d in w.vms[vm].importing && after.vms[vm].importing[d] == w.vms[vm].importing[d])
            && forall d :: d in after.vms[vm].importing <==>
                           d in w.vms[vm].importing && !ClaimHandled(w, calls, vm, d) && !PodHandled(w, calls, vm, d)
  {
    var mid := AfterClaimSweep(w, calls);
    forall d | d in mid.vms[vm].importing
      ensures PodHandled(mid, calls, vm, d) <==> PodHandled(w, calls, vm, d)
    {
      assert TagOf(mid, vm, d) == TagOf(w, vm, d);
    }
  }

  lemma OneVmHandled(w: World, handled: string, rebooted: bool, c: VmCalls, vm: string)
    requires vm in w.vms && handled in w.vms
    ensures var r, l := VmHandled(w, handled, rebooted, c), w.vms[vm];
            if vm == handled && Reached(c) && l.power != "" && l.importing == map[] then
              CommandsFor(r.issued, vm) == CommandsFor(w.issued, vm) + [l.power] && r.vms[vm].power == ""
            else
              CommandsFor(r.issued, vm) == CommandsFor(w.issued, vm) && r.vms[vm].power == l.power
  {
    var l := w.vms[handled];
    assert (w.issued + [Issued(handled, l.power)])[..|w.issued|] == w.issued;
  }

  /** A sweep over VMs issues the parked command of each VM it handles once, if the VM imports nothing. */
  lemma {:induction false} VmSweepIssuesOnce(w: World, order: seq<string>, rebooted: set<string>,
      calls: string -> VmCalls, vm: string)
    requires vm in w.vms && Distinct(order)
    ensures var r, l := AllHandled(w, order, rebooted, calls), w.vms[vm];
            if vm in order && Reached(calls(vm)) && l.power != "" && l.importing == map[] then
              CommandsFor(r.issued, vm) == CommandsFor(w.issued, vm) + [l.power] && r.vms[vm].power == ""
            else
              CommandsFor(r.issued, vm) == CommandsFor(w.issued, vm) && r.vms[vm].power == l.power
  {
    if order != [] {
      var init, last := order[..|order| - 1], order[|order| - 1];
      VmSweepIssuesOnce(w, init, rebooted, calls, vm);
      OthersUntouched(w, init, rebooted, calls);
      assert order == init + [last];
      var before := AllHandled(w, init, rebooted, calls);
      if last in before.vms {
        OneVmHandled(before, last, last in rebooted, calls(last), vm);
      }
    }
  }

  /**
   * Whatever watch events were lost: one sweep over claims, one over pods and one over VMs issue the parked
   * command of a VM, once, exactly if every import the VM waits for is done and the calls made for it and for the
   * VM succeed; otherwise the command stays parked.
   */
  lemma MissedEventsAreRecovered(w: World, vm: string, calls: Outcomes, order: seq<string>, rebooted: set<string>,
                                 vmCalls: string -> VmCalls)
    requires vm in w.vms && w.vms[vm].power != ""
    requires Distinct(order) && vm in order
    ensures var r := AllHandled(AfterPodSweep(AfterClaimSweep(w, calls), calls), order, rebooted, vmCalls);
            if Reached(vmCalls(vm))
               && forall d | d in w.vms[vm].importing :: ClaimHandled(w, calls, vm, d) || PodHandled(w, calls, vm, d)
            then
              CommandsFor(r.issued, vm) == CommandsFor(w.issued, vm) + [w.vms[vm].power] && r.vms[vm].power == ""
            else
              CommandsFor(r.issued, vm) == CommandsFor(w.issued, vm) && r.vms[vm].power == w.vms[vm].power
  {
    var after := AfterPodSweep(AfterClaimSweep(w, calls), calls);
    SweepsClearExactlyTheDone(w, calls, vm);
    VmSweepIssuesOnce(after, order, rebooted, vmCalls, vm);
    assert after.vms[vm].importing == map[] <==> forall d :: d !in after.vms[vm].importing;
  }

  /** The two sweeps of labels do not depend on which runs first. */
  lemma LabelSweepsCommute(w: World, calls: Outcomes)
    ensures AfterPodSweep(AfterClaimSweep(w, calls), calls) == AfterClaimSweep(AfterPodSweep(w, calls), calls)
  {
    var a, b := AfterPodSweep(AfterClaimSweep(w, calls), calls), AfterClaimSweep(AfterPodSweep(w, calls), calls);
    forall vm | vm in w.vms
      ensures a.vms[vm] == b.vms[vm]
    {
      CommuteAt(w, calls, vm);
    }
    assert a.vms == b.vms;
  }

  lemma CommuteAt(w: World, calls: Outcomes, vm: string)
    requires vm in w.vms
    ensures AfterPodSweep(AfterClaimSweep(w, calls), calls).vms[vm] ==
        AfterClaimSweep(AfterPodSweep(w, calls), calls).vms[vm]
  {
    SweepsClearExactlyTheDone(w, calls, vm);
    ClearedInOtherOrder(w, calls, vm);
    var a, b := AfterPodSweep(AfterClaimSweep(w, calls), calls).vms[vm].importing,
        AfterClaimSweep(AfterPodSweep(w, calls), calls).vms[vm].importing;
    assert forall d :: d in a <==> d in b;
    assert forall d | d in a :: a[d] == b[d];
    assert a == b;
  }

  lemma ClearedInOtherOrder(w: World, calls: Outcomes, vm: string)
    requires vm in w.vms
    ensures var after := AfterClaimSweep(AfterPodSweep(w, calls), calls).vms[vm];
            && after.power == w.vms[vm].power && after.bootOnce == w.vms[vm].bootOnce
            && (forall d | d in after.importing ::
                  d in w.vms[vm].importing && after.importing[d] == w.vms[vm].importing[d])
            && forall d :: d in after.importing <==>
                           d in w.vms[vm].importing && !ClaimHandled(w, calls, vm, d) && !PodHandled(w, calls, vm, d)
  {
    var pods := AfterPodSweep(w, calls);
    forall d | d in pods.vms[vm].importing
      ensures ClaimHandled(pods, calls, vm, d) <==> ClaimHandled(w, calls, vm, d)
    {
      assert TagOf(pods, vm, d) == TagOf(w, vm, d);
    }
  }
}
