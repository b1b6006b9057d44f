/** Starting the watchers of all configured chassis. */
module Watchers {
  import opened Text
  import DeferredPower
  import opened SystemNaming

  /** The namespaces of the boot-once watcher goroutines, in the order they were started. */
  class WatcherSet {
    var running: seq<string>

    constructor ()
      ensures running == []
    {
      running := [];
    }

    /** startWatchers, at start-up and after each reload of the configuration. */
    method StartWatchers(chassis: seq<Chassis>)
      modifies this
      ensures running == Namespaces(chassis)
      ensures forall ns :: Occurrences(running, ns) == |NamedBy(chassis, ns)|
    {
      var namespaces := [];
      for i := 0 to |chassis|
        invariant namespaces == Namespaces(chassis[..i])
      {
        NamespacesSnoc(chassis, i);
        namespaces := namespaces + [chassis[i].namespace];
      }
      assert chassis[..|chassis|] == chassis;
      StartBootOnceWatcher(namespaces);
      forall ns {
        OneWatcherEach(chassis, ns);
      }
    }

    /** StartBootOnceWatcher: the running goroutines are stopped first. */
    method StartBootOnceWatcher(namespaces: seq<string>)
      modifies this
      ensures running == namespaces
    {
      running := [];
      for i := 0 to |namespaces|
        invariant running == namespaces[..i]
      {
        running := running + [namespaces[i]];
      }
    }
  }

  function Namespaces(chassis: seq<Chassis>): seq<string> {
    seq(|chassis|, i requires 0 <= i < |chassis| => chassis[i].namespace)
  }

  function Occurrences(names: seq<string>, name: string): nat {
    if names == [] then 0 else Occurrences(names[..|names| - 1], name) + if names[|names| - 1] == name then 1 else 0
  }

  lemma NamespacesSnoc(chassis: seq<Chassis>, i: nat)
    requires i < |chassis|
    ensures Namespaces(chassis[..i + 1]) == Namespaces(chassis[..i]) + [chassis[i].namespace]
  {
  }

  /** A namespace has a watcher for each chassis that names it. */
  lemma {:induction false} OneWatcherEach(chassis: seq<Chassis>, ns: string)
    ensures Occurrences(Namespaces(chassis), ns) == |NamedBy(chassis, ns)|
  {
    if chassis != [] {
      var n := |chassis| - 1;
      OneWatcherEach(chassis[..n], ns);
      assert chassis[..n + 1] == chassis;
      NamespacesSnoc(chassis, n);
      assert Namespaces(chassis)[..n] == Namespaces(chassis[..n]);
      NamedByStep(chassis, ns);
    }
  }

  /** The chassis that name the namespace. */
  ghost function NamedBy(chassis: seq<Chassis>, ns: string): set<int> {
    set i | 0 <= i < |chassis| && chassis[i].namespace == ns
  }

  lemma NamedByStep(chassis: seq<Chassis>, ns: string)
    requires chassis != []
    ensures var n := |chassis| - 1;
            |NamedBy(chassis, ns)| == |NamedBy(chassis[..n], ns)| + if chassis[n].namespace == ns then 1 else 0
  {
    var n := |chassis| - 1;
    var before := NamedBy(chassis[..n], ns);
    assert NamedBy(chassis, ns) == before + if chassis[n].namespace == ns then {n} else {};
    assert n !in before;
  }

  lemma {:induction false} OccursIff(names: seq<string>, name: string)
    ensures Occurrences(names, name) > 0 <==> name in names
  {
    if names != [] {
      OccursIff(names[..|names| - 1], name);
    }
  }

  lemma {:induction false} OnceEachIff(names: seq<string>)
    ensures (forall n :: Occurrences(names, n) <= 1) <==> Distinct(names)
  {
    if names != [] {
      var last, front := names[|names| - 1], names[..|names| - 1];
      OnceEachIff(front);
      OccursIff(front, last);
      if Distinct(names) {
        forall n
          ensures Occurrences(names, n) <= 1
        {
          assert Occurrences(front, n) <= 1 && (n == last ==> Occurrences(front, n) == 0);
        }
      } else if Distinct(front) {
        assert last in front;
        assert Occurrences(names, last) > 1;
      } else {
        var n :| Occurrences(front, n) > 1;
        assert Occurrences(names, n) > 1;
      }
    }
  }

  /** No deferred command of any VM is ever issued twice exactly if no two chassis share a namespace. */
  lemma DeferredCommandsNeverRepeatIff(chassis: seq<Chassis>)
    ensures (forall ns :: DeferredPower.NeverRepeats(Occurrences(Namespaces(chassis), ns)))
        <==> Distinct(Namespaces(chassis))
  {
    OnceEachIff(Namespaces(chassis));
    forall ns
      ensures DeferredPower.NeverRepeats(Occurrences(Namespaces(chassis), ns))
          <==> Occurrences(Namespaces(chassis), ns) <= 1
    {
      DeferredPower.AtMostOncePerWriteIff(Occurrences(Namespaces(chassis), ns));
    }
  }

  /** The validation of the configuration does not see to that. */
  lemma AcceptedConfigMayShareNamespace() returns (cfg: Config)
    ensures Accepted(cfg) && !Distinct(Namespaces(cfg.chassis))
  {
    var first := Chassis("a", "vms", "bridge", None);
    var second := Chassis("b", "vms", "bridge", None);
    cfg := Config([first, second], [User("admin", "secret", ["a"])], "legacy");
    assert Namespaces(cfg.chassis)[0] == Namespaces(cfg.chassis)[1];
    assert Usernames(cfg) == ["admin"];
    assert ChassisNames(cfg) == ["a", "b"];
  }
}
