/** Listing systems and resolving the IDs handed out. */
module SystemNaming {
  import opened Text

  /** Chassis selector; the listing and the lookup interpret it separately. */
  datatype Selector = Selector(labels: map<string, string>, names: seq<string>)

  datatype Vm = Vm(name: string, labels: map<string, string>)

  datatype Chassis = Chassis(name: string, namespace: string, serviceAccount: string, selector: Option<Selector>)

  datatype User = User(username: string, password: string, chassis: seq<string>)

  datatype Config = Config(chassis: seq<Chassis>, users: seq<User>, convention: string)

  /** The VMs of each namespace in the order the API server lists them. */
  type Cluster = map<string, seq<Vm>>

  ghost predicate NamesUnique(cluster: Cluster) {
    forall ns, i, j | ns in cluster && 0 <= i < j < |cluster[ns]| :: cluster[ns][i].name != cluster[ns][j].name
  }

  // ----- Configuration -----

  predicate NameChar(c: char) {
    'a' <= c <= 'z' || '0' <= c <= '9' || c == '-'
  }

  predicate UserChar(c: char) {
    NameChar(c) || 'A' <= c <= 'Z' || c == '_'
  }

  predicate ValidName(name: string) {
    1 <= |name| <= 63 && forall i | 0 <= i < |name| :: NameChar(name[i])
  }

  predicate ValidUsername(name: string) {
    1 <= |name| <= 63 && forall i | 0 <= i < |name| :: UserChar(name[i])
  }

  predicate ValidChassis(c: Chassis) {
    ValidName(c.name) && ValidName(c.namespace) && c.serviceAccount != ""
  }

  predicate ValidUser(u: User, chassis: seq<Chassis>) {
    && ValidUsername(u.username) && |u.password| >= 6 && u.chassis != []
    && forall n | n in u.chassis :: Find(chassis, n).Some?
  }

  /** What validateConfig accepts of the chassis, users and naming convention. */
  ghost predicate Accepted(cfg: Config) {
    && cfg.chassis != [] && (forall c | c in cfg.chassis :: ValidChassis(c))
    && cfg.users != [] && (forall u | u in cfg.users :: ValidUser(u, cfg.chassis))
    && cfg.convention in {"legacy", "enhanced"}
    && Distinct(ChassisNames(cfg))
    && Distinct(Usernames(cfg))
  }

  function ChassisNames(cfg: Config): seq<string> {
    seq(|cfg.chassis|, i requires 0 <= i < |cfg.chassis| => cfg.chassis[i].name)
  }

  function Usernames(cfg: Config): seq<string> {
    seq(|cfg.users|, i requires 0 <= i < |cfg.users| => cfg.users[i].username)
  }

  /** GetChassisByName. */
  function Find(chassis: seq<Chassis>, name: string): (c: Option<Chassis>)
    ensures c.Some? ==> c.value in chassis && c.value.name == name
    ensures c.None? ==> forall d | d in chassis :: d.name != name
  {
    if chassis == [] then None
    else if chassis[0].name == name then Some(chassis[0])
    else Find(chassis[1..], name)
  }

  method IsValidNamespace(name: string) returns (ok: bool)
    ensures ok == ValidName(name)
    ensures ok ==> 1 <= |name| <= 63 && forall c | c in name :: c == '-' || 'a' <= c <= 'z' || '0' <= c <= '9'
  {
    if |name| < 1 || |name| > 63 {
      return false;
    }
    for i := 0 to |name|
      invariant forall j | 0 <= j < i :: NameChar(name[j])
    {
      if !('a' <= name[i] <= 'z' || '0' <= name[i] <= '9' || name[i] == '-') {
        return false;
      }
    }
    ok := true;
  }

  /** The loop both uniqueness checks share, over chassis names or usernames. */
  method ValidateUnique(names: seq<string>) returns (ok: bool)
    ensures ok == Distinct(names)
  {
    var seen: map<string, nat> := map[];
    for i := 0 to |names|
      invariant forall n :: n in seen <==> n in names[..i]
      invariant forall n | n in seen :: seen[n] < i && names[seen[n]] == n
      invariant forall j, k | 0 <= j < k < i :: names[j] != names[k]
    {
      if names[i] in seen {
        assert names[seen[names[i]]] == names[i];
        return false;
      }
      seen := seen[names[i] := i];
      assert names[..i + 1] == names[..i] + [names[i]];
    }
    ok := true;
  }

  /** The chassis, user and convention checks of validateConfig; all run, any failure rejects. */
  method ValidateConfig(cfg: Config) returns (ok: bool)
    ensures ok == Accepted(cfg)
    ensures ok ==> forall c | c in cfg.chassis ::
                     1 <= |c.name| <= 63 && '.' !in c.name && 1 <= |c.namespace| <= 63 && '.' !in c.namespace
                     && c.serviceAccount != ""
    ensures ok ==> cfg.chassis != [] && cfg.users != [] && (cfg.convention == "legacy" || cfg.convention == "enhanced")
    ensures ok ==> forall u | u in cfg.users ::
                     1 <= |u.username| <= 63 && |u.password| >= 6 && u.chassis != []
                     && forall n | n in u.chassis :: exists c :: c in cfg.chassis && c.name == n
  {
    ok := cfg.chassis != [] && cfg.users != [] && (cfg.convention == "legacy" || cfg.convention == "enhanced");
    for i := 0 to |cfg.chassis|
      invariant ok == (cfg.chassis != [] && cfg.users != [] && cfg.convention in {"legacy", "enhanced"}
                       && forall j | 0 <= j < i :: ValidChassis(cfg.chassis[j]))
    {
      var c := cfg.chassis[i];
      var validNamespace := IsValidNamespace(c.namespace);
      ok := ok && ValidName(c.name) && validNamespace && c.serviceAccount != "";
    }
    for i := 0 to |cfg.users|
      invariant ok == (cfg.chassis != [] && cfg.users != [] && cfg.convention in {"legacy", "enhanced"}
                       && (forall c | c in cfg.chassis :: ValidChassis(c))
                       && forall j | 0 <= j < i :: ValidUser(cfg.users[j], cfg.chassis))
    {
      ok := ok && ValidUser(cfg.users[i], cfg.chassis);
    }
    var uniqueChassis := ValidateUnique(ChassisNames(cfg));
    var uniqueUsers := ValidateUnique(Usernames(cfg));
    ok := ok && uniqueChassis && uniqueUsers;
  }

  // ----- Listing -----

  /** The API server's equality selector: every label must be there with its value. */
  predicate ServerSelects(vm: Vm, labels: map<string, string>) {
    forall k | k in labels :: k in vm.labels && vm.labels[k] == labels[k]
  }

  predicate Lists(vm: Vm, selector: Option<Selector>) {
    selector.Some? ==>
      && ServerSelects(vm, selector.value.labels)
      && (selector.value.names != [] ==> vm.name in selector.value.names)
  }

  function Listed(vms: seq<Vm>, selector: Option<Selector>): seq<string> {
    if vms == [] then []
    else (if Lists(vms[0], selector) then [vms[0].name] else []) + Listed(vms[1..], selector)
  }

  function VmsOf(cluster: Cluster, ns: string): seq<Vm> {
    if ns in cluster then cluster[ns] else []
  }

  function SystemId(convention: string, ns: string, vm: string): string {
    if convention == "enhanced" then ns + "." + vm else vm
  }

  /** The members of the systems collection; `failed` names the chassis whose listing failed. */
  function Members(cfg: Config, cluster: Cluster, chassis: seq<string>, failed: set<string>): seq<string> {
    if chassis == [] then []
    else
      var rest := Members(cfg, cluster, chassis[1..], failed);
      match Find(cfg.chassis, chassis[0])
      case None => rest
      case Some(c) =>
        (if c.name in failed then [] else Ids(cfg, c, Listed(VmsOf(cluster, c.namespace), c.selector))) + rest
  }

  function Ids(cfg: Config, c: Chassis, names: seq<string>): seq<string> {
    if names == [] then [] else [SystemId(cfg.convention, c.namespace, names[0])] + Ids(cfg, c, names[1..])
  }

  method ListVMsWithSelector(vms: seq<Vm>, selector: Option<Selector>) returns (names: seq<string>)
    ensures names == Listed(vms, selector)
  {
    names := [];
    for i := 0 to |vms|
      invariant Listed(vms, selector) == names + Listed(vms[i..], selector)
    {
      var vm := vms[i];
      ListedFrom(vms, selector, i);
      ghost var rest := Listed(vms[i + 1..], selector);
      ConcatAssoc(names, [vm.name], rest);
      assert [] + rest == rest;
      if selector.None? || ServerSelects(vm, selector.value.labels) {
        if selector.Some? && selector.value.names != [] {
          var allowed := NameAllowed(vm.name, selector.value.names);
          names := if allowed then names + [vm.name] else names;
        } else {
          names := names + [vm.name];
        }
      }
    }
  }

  lemma ListedFrom(vms: seq<Vm>, selector: Option<Selector>, i: nat)
    requires i < |vms|
    ensures Listed(vms[i..], selector) ==
            (if Lists(vms[i], selector) then [vms[i].name] else []) + Listed(vms[i + 1..], selector)
  {
    SuffixStep(vms, i);
  }

  method NameAllowed(name: string, allowed: seq<string>) returns (found: bool)
    ensures found == (name in allowed)
  {
    for j := 0 to |allowed|
      invariant name !in allowed[..j]
    {
      if name == allowed[j] {
        return true;
      }
      assert allowed[..j + 1] == allowed[..j] + [allowed[j]];
    }
    found := false;
  }

  /** The listing loop of handleSystemsCollection. */
  method SystemsCollection(cfg: Config, cluster: Cluster, user: User, failed: set<string>)
      returns (members: seq<string>)
    ensures members == Members(cfg, cluster, user.chassis, failed)
  {
    members := [];
    for i := 0 to |user.chassis|
      invariant Members(cfg, cluster, user.chassis, failed) ==
          members + Members(cfg, cluster, user.chassis[i..], failed)
    {
      SuffixStep(user.chassis, i);
      ghost var rest := Members(cfg, cluster, user.chassis[i + 1..], failed);
      assert [] + rest == rest;
      var found := Find(cfg.chassis, user.chassis[i]);
      if found.Some? && found.value.name !in failed {
        var names := ListVMsWithSelector(VmsOf(cluster, found.value.namespace), found.value.selector);
        var ids := SystemIds(cfg, found.value, names);
        ConcatAssoc(members, ids, rest);
        members := members + ids;
      }
    }
  }

  method SystemIds(cfg: Config, c: Chassis, names: seq<string>) returns (ids: seq<string>)
    ensures ids == Ids(cfg, c, names)
  {
    ids := [];
    for j := 0 to |names|
      invariant Ids(cfg, c, names) == ids + Ids(cfg, c, names[j..])
    {
      assert names[j..][1..] == names[j + 1..];
      ids := ids + [SystemId(cfg.convention, c.namespace, names[j])];
    }
  }

  // ----- What the collection holds, and in which order -----

  /** How many of the first `n` VMs the selector lists. */
  function ListedBefore(vms: seq<Vm>, selector: Option<Selector>, n: nat): nat
    requires n <= |vms|
  {
    if n == 0 then 0 else ListedBefore(vms, selector, n - 1) + if Lists(vms[n - 1], selector) then 1 else 0
  }

  /** How many VMs the chassis contributes: none if it is not configured or its listing failed. */
  function Contribution(cfg: Config, cluster: Cluster, name: string, failed: set<string>): nat {
    match Find(cfg.chassis, name)
    case None => 0
    case Some(c) =>
      var vms := VmsOf(cluster, c.namespace);
      if c.name in failed then 0 else ListedBefore(vms, c.selector, |vms|)
  }

  /** How many members come from the first `i` of these chassis. */
  function MembersBefore(cfg: Config, cluster: Cluster, chassis: seq<string>, failed: set<string>, i: nat): nat
    requires i <= |chassis|
  {
    if i == 0 then 0
    else MembersBefore(cfg, cluster, chassis, failed, i - 1) + Contribution(cfg, cluster, chassis[i - 1], failed)
  }

  lemma {:induction false} ListedBeforeTail(vms: seq<Vm>, selector: Option<Selector>, n: nat)
    requires 0 < n <= |vms|
    ensures ListedBefore(vms, selector, n) ==
            (if Lists(vms[0], selector) then 1 else 0) + ListedBefore(vms[1..], selector, n - 1)
  {
    if n > 1 {
      ListedBeforeTail(vms, selector, n - 1);
    }
  }

  lemma {:induction false} ListedCount(vms: seq<Vm>, selector: Option<Selector>)
    ensures |Listed(vms, selector)| == ListedBefore(vms, selector, |vms|)
  {
    if vms != [] {
      ListedCount(vms[1..], selector);
      ListedBeforeTail(vms, selector, |vms|);
    }
  }

  lemma {:induction false} ListedAt(vms: seq<Vm>, selector: Option<Selector>, n: nat)
    requires n < |vms| && Lists(vms[n], selector)
    ensures ListedBefore(vms, selector, n) < |Listed(vms, selector)|
    ensures Listed(vms, selector)[ListedBefore(vms, selector, n)] == vms[n].name
  {
    if n > 0 {
      ListedAt(vms[1..], selector, n - 1);
      ListedBeforeTail(vms, selector, n);
    }
  }

  lemma {:induction false} IdsAt(cfg: Config, c: Chassis, names: seq<string>)
    ensures |Ids(cfg, c, names)| == |names|
    ensures forall j | 0 <= j < |names| :: Ids(cfg, c, names)[j] == SystemId(cfg.convention, c.namespace, names[j])
  {
    if names != [] {
      IdsAt(cfg, c, names[1..]);
    }
  }

  /** Under the legacy convention, and any but "enhanced", the ID is the VM's name alone. */
  lemma IdsByConvention(ns: string, vm: string)
    ensures SystemId("enhanced", ns, vm) == ns + "." + vm
    ensures forall convention | convention != "enhanced" :: SystemId(convention, ns, vm) == vm
  {
  }

  lemma {:induction false} MembersBeforeTail(cfg: Config, cluster: Cluster, chassis: seq<string>, failed: set<string>,
      i: nat)
    requires 0 < i <= |chassis|
    ensures MembersBefore(cfg, cluster, chassis, failed, i) ==
            Contribution(cfg, cluster, chassis[0], failed) + MembersBefore(cfg, cluster, chassis[1..], failed, i - 1)
  {
    if i > 1 {
      MembersBeforeTail(cfg, cluster, chassis, failed, i - 1);
    }
  }

  lemma FirstContribution(cfg: Config, cluster: Cluster, chassis: seq<string>, failed: set<string>)
    requires chassis != []
    ensures |Members(cfg, cluster, chassis, failed)| ==
            Contribution(cfg, cluster, chassis[0], failed) + |Members(cfg, cluster, chassis[1..], failed)|
    ensures Members(cfg, cluster, chassis, failed)[Contribution(cfg, cluster, chassis[0], failed)..] ==
            Members(cfg, cluster, chassis[1..], failed)
  {
    var found := Find(cfg.chassis, chassis[0]);
    if found.Some? && found.value.name !in failed {
      var vms := VmsOf(cluster, found.value.namespace);
      ListedCount(vms, found.value.selector);
      IdsAt(cfg, found.value, Listed(vms, found.value.selector));
    }
  }

  /** The collection has as many members as the chassis contribute. */
  lemma {:induction false} MembersCounted(cfg: Config, cluster: Cluster, chassis: seq<string>, failed: set<string>)
    ensures |Members(cfg, cluster, chassis, failed)| == MembersBefore(cfg, cluster, chassis, failed, |chassis|)
  {
    if chassis != [] {
      MembersCounted(cfg, cluster, chassis[1..], failed);
      MembersBeforeTail(cfg, cluster, chassis, failed, |chassis|);
      FirstContribution(cfg, cluster, chassis, failed);
    }
  }

  /**
   * The collection is complete and in order: each VM that the selector of a configured chassis with an answered listing
   * lists has its ID behind the members of the earlier chassis and of the earlier VMs; by MembersCounted there are no
   * other members.
   */
  lemma {:induction false} EveryListedVmIsAMember(cfg: Config, cluster: Cluster, chassis: seq<string>,
      failed: set<string>, i: nat, n: nat)
    requires i < |chassis| && Find(cfg.chassis, chassis[i]).Some?
    requires var c := Find(cfg.chassis, chassis[i]).value;
             c.name !in failed && n < |VmsOf(cluster, c.namespace)| && Lists(VmsOf(cluster, c.namespace)[n], c.selector)
    ensures var c, members := Find(cfg.chassis, chassis[i]).value, Members(cfg, cluster, chassis, failed);
            var vms := VmsOf(cluster, c.namespace);
            var at := MembersBefore(cfg, cluster, chassis, failed, i) + ListedBefore(vms, c.selector, n);
            at < |members| && members[at] == SystemId(cfg.convention, c.namespace, vms[n].name)
  {
    if i == 0 {
      FirstChassisMember(cfg, cluster, chassis, failed, n);
    } else {
      EveryListedVmIsAMember(cfg, cluster, chassis[1..], failed, i - 1, n);
      MembersBeforeTail(cfg, cluster, chassis, failed, i);
      var c := Find(cfg.chassis, chassis[i]).value;
      LaterMember(cfg, cluster, chassis, failed, MembersBefore(cfg, cluster, chassis[1..], failed, i - 1)
                                                 + ListedBefore(VmsOf(cluster, c.namespace), c.selector, n));
    }
  }

  lemma LaterMember(cfg: Config, cluster: Cluster, chassis: seq<string>, failed: set<string>, at: nat)
    requires chassis != [] && at < |Members(cfg, cluster, chassis[1..], failed)|
    ensures var later := Contribution(cfg, cluster, chassis[0], failed) + at;
            later < |Members(cfg, cluster, chassis, failed)|
            && Members(cfg, cluster, chassis, failed)[later] == Members(cfg, cluster, chassis[1..], failed)[at]
  {
    FirstContribution(cfg, cluster, chassis, failed);
  }

  lemma FirstChassisMember(cfg: Config, cluster: Cluster, chassis: seq<string>, failed: set<string>, n: nat)
    requires chassis != [] && Find(cfg.chassis, chassis[0]).Some?
    requires var c := Find(cfg.chassis, chassis[0]).value;
             c.name !in failed && n < |VmsOf(cluster, c.namespace)| && Lists(VmsOf(cluster, c.namespace)[n], c.selector)
    ensures var c, members := Find(cfg.chassis, chassis[0]).value, Members(cfg, cluster, chassis, failed);
            var vms := VmsOf(cluster, c.namespace);
            var at := ListedBefore(vms, c.selector, n);
            at < |members| && members[at] == SystemId(cfg.convention, c.namespace, vms[n].name)
  {
    var c := Find(cfg.chassis, chassis[0]).value;
    var vms := VmsOf(cluster, c.namespace);
    ListedAt(vms, c.selector, n);
    IdsAt(cfg, c, Listed(vms, c.selector));
    assert Members(cfg, cluster, chassis, failed) ==
        Ids(cfg, c, Listed(vms, c.selector)) + Members(cfg, cluster, chassis[1..], failed);
  }

  // ----- Resolving -----

  /** VMMatchesSelector; a missing label reads as "". */
  predicate Matches(vm: Vm, selector: Option<Selector>) {
    selector.Some? ==>
      && (selector.value.names != [] ==> vm.name in selector.value.names)
      && forall k | k in selector.value.labels ::
          (if k in vm.labels then vm.labels[k] else "") == selector.value.labels[k]
  }

  function GetVm(cluster: Cluster, ns: string, name: string): Option<Vm> {
    FindVm(VmsOf(cluster, ns), name)
  }

  function FindVm(vms: seq<Vm>, name: string): (vm: Option<Vm>)
    ensures vm.Some? ==> vm.value in vms && vm.value.name == name
    ensures vm.None? ==> forall v | v in vms :: v.name != name
  {
    if vms == [] then None else if vms[0].name == name then Some(vms[0]) else FindVm(vms[1..], name)
  }

  /** Split at the first dot; without a dot the namespace is "". */
  function ParseSystemId(id: string): (string, string) {
    var dot := FirstDot(id);
    if dot < |id| then (id[..dot], id[dot + 1..]) else ("", id)
  }

  function FirstDot(id: string): (i: nat)
    ensures i <= |id| && (i < |id| ==> id[i] == '.') && forall j | 0 <= j < i :: id[j] != '.'
  {
    if id == "" || id[0] == '.' then 0 else 1 + FirstDot(id[1..])
  }

  datatype Resolved = Resolved(namespace: string, vm: string, chassis: string)

  /** The chassis admits the VM under the requested namespace, "" asking for any. */
  predicate Admits(cfg: Config, cluster: Cluster, chassis: string, ns: string, vm: string) {
    match Find(cfg.chassis, chassis)
    case None => false
    case Some(c) =>
      && (ns != "" ==> c.namespace == ns)
      && GetVm(cluster, c.namespace, vm).Some?
      && Matches(GetVm(cluster, c.namespace, vm).value, c.selector)
  }

  function ResolveIn(cfg: Config, cluster: Cluster, chassis: seq<string>, ns: string, vm: string): Option<Resolved> {
    if chassis == [] then None
    else if Admits(cfg, cluster, chassis[0], ns, vm) then
      var c := Find(cfg.chassis, chassis[0]).value;
      Some(Resolved(c.namespace, vm, c.name))
    else ResolveIn(cfg, cluster, chassis[1..], ns, vm)
  }

  function Resolve(cfg: Config, cluster: Cluster, user: User, id: string): Option<Resolved> {
    var (ns, vm) := ParseSystemId(id);
    ResolveIn(cfg, cluster, user.chassis, ns, vm)
  }

  /** The chassis from position `i` on whose VM lookup gets an answer. */
  function Answering(chassis: seq<string>, failing: set<nat>, i: nat): seq<string>
    requires i <= |chassis|
    decreases |chassis| - i
  {
    if i == |chassis| then []
    else (if i in failing then [] else [chassis[i]]) + Answering(chassis, failing, i + 1)
  }

  lemma {:induction false} AllAnswering(chassis: seq<string>, i: nat)
    requires i <= |chassis|
    ensures Answering(chassis, {}, i) == chassis[i..]
    decreases |chassis| - i
  {
    if i < |chassis| {
      AllAnswering(chassis, i + 1);
    }
  }

  /** Failing lookups are passed over: the lookup fails exactly if no chassis whose lookup is answered admits the VM. */
  lemma {:induction false} ResolvedAmongAnswering(cfg: Config, cluster: Cluster, chassis: seq<string>,
      failing: set<nat>, i: nat, ns: string, vm: string)
    requires i <= |chassis|
    ensures ResolveIn(cfg, cluster, Answering(chassis, failing, i), ns, vm).None? <==>
            forall j | i <= j < |chassis| && j !in failing :: !Admits(cfg, cluster, chassis[j], ns, vm)
    decreases |chassis| - i
  {
    if i < |chassis| {
      ResolvedAmongAnswering(cfg, cluster, chassis, failing, i + 1, ns, vm);
      var rest := Answering(chassis, failing, i + 1);
      assert [] + rest == rest && ([chassis[i]] + rest)[1..] == rest;
    }
  }

  /** resolveSystemVMandCheckAccess; `failing` are the positions of the user's chassis at which the VM lookup fails. */
  method ResolveSystem(cfg: Config, cluster: Cluster, caller: Option<User>, id: string, failing: set<nat>)
      returns (r: Option<Resolved>)
    ensures caller.None? ==> r == None
    ensures caller.Some? ==>
              var (ns, vm) := ParseSystemId(id);
              r == ResolveIn(cfg, cluster, Answering(caller.value.chassis, failing, 0), ns, vm)
    ensures caller.Some? && failing == {} ==> r == Resolve(cfg, cluster, caller.value, id)
  {
    var (ns, vm) := ParseSystemId(id);
    if caller.None? {
      return None;
    }
    var user := caller.value;
    AllAnswering(user.chassis, 0);
    for i := 0 to |user.chassis|
      invariant ResolveIn(cfg, cluster, Answering(user.chassis, failing, 0), ns, vm)
             == ResolveIn(cfg, cluster, Answering(user.chassis, failing, i), ns, vm)
    {
      ghost var rest := Answering(user.chassis, failing, i + 1);
      assert [] + rest == rest && ([user.chassis[i]] + rest)[1..] == rest;
      var found := Find(cfg.chassis, user.chassis[i]);
      if found.None? || (ns != "" && found.value.namespace != ns) {
        continue;
      }
      var c := found.value;
      var machine := if i in failing then None else GetVm(cluster, c.namespace, vm);
      if machine.Some? && Matches(machine.value, c.selector) {
        return Some(Resolved(c.namespace, vm, c.name));
      }
    }
    r := None;
  }

  // ----- Agreement of the two -----

  /** The VM with blank values for those of the labels that it lacks. */
  function WithBlanks(vm: Vm, labels: set<string>): Vm {
    vm.(labels := map k | k in vm.labels.Keys + labels :: if k in vm.labels then vm.labels[k] else "")
  }

  /** What the listing selects the lookup accepts; the converse fails exactly for missing labels wanted as "". */
  lemma SelectorsAgreeIff(vm: Vm, selector: Option<Selector>)
    ensures Lists(vm, selector) ==> Matches(vm, selector)
    ensures selector.Some? ==> (Matches(vm, selector) <==> Lists(WithBlanks(vm, selector.value.labels.Keys), selector))
    ensures Matches(vm, selector) && !Lists(vm, selector) <==>
            Matches(vm, selector) && selector.Some?
            && exists k :: k in selector.value.labels && selector.value.labels[k] == "" && k !in vm.labels
  {
  }

  /** Where a member of the collection comes from. */
  lemma {:induction false} MemberOrigin(cfg: Config, cluster: Cluster, chassis: seq<string>, failed: set<string>,
      id: string)
      returns (i: nat, vm: Vm)
    requires id in Members(cfg, cluster, chassis, failed)
    ensures i < |chassis| && Find(cfg.chassis, chassis[i]).Some?
    ensures var c := Find(cfg.chassis, chassis[i]).value;
            vm in VmsOf(cluster, c.namespace) && Lists(vm, c.selector)
                && id == SystemId(cfg.convention, c.namespace, vm.name)
  {
    var rest := Members(cfg, cluster, chassis[1..], failed);
    var found := Find(cfg.chassis, chassis[0]);
    if id in rest {
      i, vm := MemberOrigin(cfg, cluster, chassis[1..], failed, id);
      i := i + 1;
    } else {
      var c := found.value;
      var name := IdOrigin(cfg, c, Listed(VmsOf(cluster, c.namespace), c.selector), id);
      vm := ListedOrigin(VmsOf(cluster, c.namespace), c.selector, name);
      i := 0;
    }
  }

  lemma {:induction false} IdOrigin(cfg: Config, c: Chassis, names: seq<string>, id: string) returns (name: string)
    requires id in Ids(cfg, c, names)
    ensures name in names && id == SystemId(cfg.convention, c.namespace, name)
  {
    name := names[0];
    if id != SystemId(cfg.convention, c.namespace, name) {
      name := IdOrigin(cfg, c, names[1..], id);
    }
  }

  lemma {:induction false} ListedOrigin(vms: seq<Vm>, selector: Option<Selector>, name: string) returns (vm: Vm)
    requires name in Listed(vms, selector)
    ensures vm in vms && vm.name == name && Lists(vm, selector)
  {
    vm := vms[0];
    if !(Lists(vm, selector) && vm.name == name) {
      vm := ListedOrigin(vms[1..], selector, name);
    }
  }

  ghost predicate FirstAdmits(cfg: Config, cluster: Cluster, chassis: seq<string>, ns: string, vm: string, i: int) {
    0 <= i < |chassis| && Admits(cfg, cluster, chassis[i], ns, vm)
    && forall j | 0 <= j < i :: !Admits(cfg, cluster, chassis[j], ns, vm)
  }

  /** The lookup takes the first of the user's chassis that admits the VM, and nothing else. */
  lemma {:induction false} ResolvesToFirstAdmitting(cfg: Config, cluster: Cluster, chassis: seq<string>, ns: string,
      vm: string)
    ensures ResolveIn(cfg, cluster, chassis, ns, vm).None? <==>
            forall i | 0 <= i < |chassis| :: !Admits(cfg, cluster, chassis[i], ns, vm)
    ensures ResolveIn(cfg, cluster, chassis, ns, vm).Some? ==>
              exists i :: FirstAdmits(cfg, cluster, chassis, ns, vm, i)
                && ResolveIn(cfg, cluster, chassis, ns, vm).value ==
                   Resolved(Find(cfg.chassis, chassis[i]).value.namespace, vm, chassis[i])
  {
    if chassis != [] {
      var rest := chassis[1..];
      if Admits(cfg, cluster, chassis[0], ns, vm) {
        assert FirstAdmits(cfg, cluster, chassis, ns, vm, 0);
      } else {
        ResolvesToFirstAdmitting(cfg, cluster, rest, ns, vm);
        assert forall i | 0 < i < |chassis| :: chassis[i] == rest[i - 1];
        if ResolveIn(cfg, cluster, rest, ns, vm).Some? {
          var i :| FirstAdmits(cfg, cluster, rest, ns, vm, i)
                   && ResolveIn(cfg, cluster, rest, ns, vm).value ==
                      Resolved(Find(cfg.chassis, rest[i]).value.namespace, vm, rest[i]);
          assert chassis[i + 1] == rest[i];
          assert FirstAdmits(cfg, cluster, chassis, ns, vm, i + 1);
        }
      }
    }
  }

  lemma ListedVmIsAdmitted(cfg: Config, cluster: Cluster, chassis: string, vm: Vm, ns: string)
    requires NamesUnique(cluster) && Find(cfg.chassis, chassis).Some?
    requires var c := Find(cfg.chassis, chassis).value;
             vm in VmsOf(cluster, c.namespace) && Lists(vm, c.selector) && (ns == "" || ns == c.namespace)
    ensures Admits(cfg, cluster, chassis, ns, vm.name)
  {
    var c := Find(cfg.chassis, chassis).value;
    SelectorsAgreeIff(vm, c.selector);
    var got := GetVm(cluster, c.namespace, vm.name);
    assert got.value == vm;
  }

  /**
   * Under the enhanced convention every listed ID resolves to the very VM it was listed for, dots in its name or not.
   */
  lemma EnhancedIdsResolveExactly(cfg: Config, cluster: Cluster, user: User, failed: set<string>, id: string)
      returns (ns: string, vm: Vm)
    requires Accepted(cfg) && NamesUnique(cluster) && user in cfg.users && cfg.convention == "enhanced"
    requires id in Members(cfg, cluster, user.chassis, failed)
    ensures vm in VmsOf(cluster, ns) && id == ns + "." + vm.name
    ensures Resolve(cfg, cluster, user, id).Some?
    ensures Resolve(cfg, cluster, user, id).value.namespace == ns && Resolve(cfg, cluster, user, id).value.vm == vm.name
  {
    var i;
    i, vm := MemberOrigin(cfg, cluster, user.chassis, failed, id);
    var c := Find(cfg.chassis, user.chassis[i]).value;
    ns := c.namespace;
    assert ValidChassis(c);
    EnhancedIdParses(ns, vm.name);
    ListedVmIsAdmitted(cfg, cluster, user.chassis[i], vm, ns);
    ResolvesToFirstAdmitting(cfg, cluster, user.chassis, ns, vm.name);
  }

  lemma EnhancedIdParses(ns: string, vm: string)
    requires ValidName(ns)
    ensures ParseSystemId(ns + "." + vm) == (ns, vm)
  {
    var id := ns + "." + vm;
    var dot := FirstDot(id);
    assert id[|ns|] == '.';
    assert forall j | 0 <= j < |ns| :: NameChar(ns[j]) && id[j] == ns[j];
    assert dot == |ns| && id[..dot] == ns && id[dot + 1..] == vm;
  }

  /** Under the legacy convention a listed ID resolves to a VM of that name exactly if the name has no dot. */
  lemma LegacyIdsResolveIff(cfg: Config, cluster: Cluster, user: User, failed: set<string>, id: string)
    requires Accepted(cfg) && NamesUnique(cluster) && user in cfg.users && cfg.convention == "legacy"
    requires id in Members(cfg, cluster, user.chassis, failed)
    ensures Resolve(cfg, cluster, user, id).Some? && Resolve(cfg, cluster, user, id).value.vm == id <==> '.' !in id
  {
    var i, vm := MemberOrigin(cfg, cluster, user.chassis, failed, id);
    var (ns, name) := ParseSystemId(id);
    ResolvesToFirstAdmitting(cfg, cluster, user.chassis, ns, name);
    if '.' !in id {
      assert ns == "" && name == id;
      ListedVmIsAdmitted(cfg, cluster, user.chassis[i], vm, "");
    } else {
      assert FirstDot(id) < |id|;
      assert |name| < |id|;
    }
  }

  /** Whatever resolves lies in one of the user's chassis and matches its selector. */
  lemma ResolvedIsAccessible(cfg: Config, cluster: Cluster, user: User, id: string)
    requires Resolve(cfg, cluster, user, id).Some?
    ensures var r := Resolve(cfg, cluster, user, id).value;
            && r.chassis in user.chassis && Find(cfg.chassis, r.chassis).Some?
            && var c := Find(cfg.chassis, r.chassis).value;
               c.namespace == r.namespace && GetVm(cluster, r.namespace, r.vm).Some?
               && Matches(GetVm(cluster, r.namespace, r.vm).value, c.selector)
  {
    var (ns, vm) := ParseSystemId(id);
    ResolvesToFirstAdmitting(cfg, cluster, user.chassis, ns, vm);
  }
}
