/** The part of a VirtualMachine spec the controller edits. */
module VmSpec {
  import opened Text

  datatype Device = CdRom | DiskTarget | Lun

  /** `bootOrder` is None when the pointer in the spec is nil. */
  datatype Disk = Disk(name: string, device: Device, bootOrder: Option<nat>)

  datatype VolumeSource = DataVolume | ContainerDisk | Claim(pvc: string) | OtherSource

  datatype Volume = Volume(name: string, source: VolumeSource)

  datatype Template = Template(disks: seq<Disk>, volumes: seq<Volume>)

  function DiskNames(ds: seq<Disk>): (names: seq<string>)
    ensures |names| == |ds|
  {
    seq(|ds|, i requires 0 <= i < |ds| => ds[i].name)
  }

  /** The two disk lists differ at most in their boot orders. */
  ghost predicate SameShape(a: seq<Disk>, b: seq<Disk>) {
    && |a| == |b|
    && forall i | 0 <= i < |a| :: a[i].name == b[i].name && a[i].device == b[i].device
  }
}

/** Boot-order override, snapshot and restore. */
module BootOrder {
  import opened Text
  import opened VmSpec

  datatype Kind = Cd | Hdd | Unbootable

  const CD_TARGET := "Cd"
  const HDD_TARGET := "Hdd"

  predicate IsCdVolume(v: Volume) {
    HasPrefix(v.name, "cdrom")
  }

  predicate IsHddVolume(v: Volume) {
    !IsCdVolume(v) && (v.source.DataVolume? || v.source.ContainerDisk?)
  }

  /** What the volumes say about a disk of this name. */
  function KindOf(vs: seq<Volume>, name: string): Kind {
    if exists v :: v in vs && v.name == name && IsCdVolume(v) then Cd
    else if exists v :: v in vs && v.name == name && IsHddVolume(v) then Hdd
    else Unbootable
  }

  function CdVolumes(vs: seq<Volume>): nat {
    if vs == [] then 0
    else CdVolumes(vs[..|vs| - 1]) + if IsCdVolume(vs[|vs| - 1]) then 1 else 0
  }

  /** How many of the first `i` disks are of this kind. */
  function Rank(ds: seq<Disk>, vs: seq<Volume>, kind: Kind, i: nat): nat
    requires i <= |ds|
  {
    if i == 0 then 0
    else Rank(ds, vs, kind, i - 1) + if KindOf(vs, ds[i - 1].name) == kind then 1 else 0
  }

  function Count(ds: seq<Disk>, vs: seq<Volume>, kind: Kind): nat {
    Rank(ds, vs, kind, |ds|)
  }

  /** The order the override gives to disk `i`. */
  function OrderAt(ds: seq<Disk>, vs: seq<Volume>, target: string, i: nat): Option<nat>
    requires i < |ds|
  {
    match KindOf(vs, ds[i].name)
    case Cd => if target == CD_TARGET then Some(1 + Rank(ds, vs, Cd, i)) else None
    case Hdd =>
      if target == HDD_TARGET then Some(1 + Rank(ds, vs, Hdd, i))
      else if target == CD_TARGET then Some(CdVolumes(vs) + 1 + Rank(ds, vs, Hdd, i))
      else None
    case Unbootable => None
  }

  function Overridden(ds: seq<Disk>, vs: seq<Volume>, target: string): seq<Disk> {
    seq(|ds|, i requires 0 <= i < |ds| => ds[i].(bootOrder := OrderAt(ds, vs, target, i)))
  }

  method ModifyBootOrder(volumes: seq<Volume>, disks: array<Disk>, target: string)
    modifies disks
    ensures disks[..] == Overridden(old(disks[..]), volumes, target)
  {
    var types, cdsFound := ClassifyVolumes(volumes);
    ghost var ds := disks[..];
    var nextPrimary, nextSecondary := 1, 1;
    for i := 0 to disks.Length
      invariant forall j | i <= j < disks.Length :: disks[j] == ds[j]
      invariant forall j | 0 <= j < i :: disks[j] == ds[j].(bootOrder := OrderAt(ds, volumes, target, j))
      invariant target == CD_TARGET ==> nextPrimary == 1 + Rank(ds, volumes, Cd, i)
      invariant target == CD_TARGET ==> nextSecondary == 1 + Rank(ds, volumes, Hdd, i)
      invariant target == HDD_TARGET ==> nextPrimary == 1 + Rank(ds, volumes, Hdd, i)
    {
      var name := disks[i].name;
      var kind := if name in types then types[name] else Unbootable;
      if kind == Cd && target == "Cd" {
        disks[i] := disks[i].(bootOrder := Some(nextPrimary));
        nextPrimary := nextPrimary + 1;
      } else if kind == Hdd && target == "Hdd" {
        disks[i] := disks[i].(bootOrder := Some(nextPrimary));
        nextPrimary := nextPrimary + 1;
      } else if kind == Hdd && target == "Cd" {
        disks[i] := disks[i].(bootOrder := Some(cdsFound + nextSecondary));
        nextSecondary := nextSecondary + 1;
      } else {
        disks[i] := disks[i].(bootOrder := None);
      }
    }
  }

  method ClassifyVolumes(volumes: seq<Volume>) returns (types: map<string, Kind>, cdsFound: nat)
    ensures cdsFound == CdVolumes(volumes)
    ensures forall n :: (if n in types then types[n] else Unbootable) == KindOf(volumes, n)
  {
    types := map[];
    cdsFound := 0;
    for k := 0 to |volumes|
      invariant cdsFound == CdVolumes(volumes[..k])
      invariant forall n :: (if n in types then types[n] else Unbootable) == KindOf(volumes[..k], n)
    {
      var volume := volumes[k];
      assert volumes[..k + 1] == volumes[..k] + [volume];
      KindOfSnoc(volumes[..k], volume);
      if HasPrefix(volume.name, "cdrom") {
        cdsFound := cdsFound + 1;
        types := types[volume.name := Cd];
        continue;
      }
      if volume.source.DataVolume? || volume.source.ContainerDisk? {
        types := types[volume.name := Hdd];
      }
    }
    assert volumes[..|volumes|] == volumes;
  }

  lemma KindOfSnoc(vs: seq<Volume>, v: Volume)
    ensures forall n :: KindOf(vs + [v], n) ==
                        if n == v.name && IsCdVolume(v) then Cd
                        else if n == v.name && IsHddVolume(v) then Hdd
                        else KindOf(vs, n)
  {
    forall n
      ensures KindOf(vs + [v], n) ==
              if n == v.name && IsCdVolume(v) then Cd
              else if n == v.name && IsHddVolume(v) then Hdd
              else KindOf(vs, n)
    {
      var ws := vs + [v];
      assert v in ws;
      assert forall w :: w in ws <==> w in vs || w == v;
    }
  }

  // ----- What the override assigns -----

  ghost predicate HasOrder(ds: seq<Disk>, m: nat) {
    exists i :: 0 <= i < |ds| && ds[i].bootOrder == Some(m)
  }

  ghost predicate OrdersDistinct(ds: seq<Disk>) {
    forall i, j | 0 <= i < j < |ds| && ds[i].bootOrder.Some? ::
      ds[i].bootOrder != ds[j].bootOrder
  }

  /** The assigned orders are positive and leave no gap below any of them. */
  ghost predicate OrdersContiguous(ds: seq<Disk>) {
    && !HasOrder(ds, 0)
    && forall m: nat, low: nat | HasOrder(ds, m) && 1 <= low <= m :: HasOrder(ds, low)
  }

  lemma {:induction false} RankStep(ds: seq<Disk>, vs: seq<Volume>, kind: Kind, i: nat, j: nat)
    requires i <= j <= |ds|
    ensures Rank(ds, vs, kind, i) <= Rank(ds, vs, kind, j)
    ensures i < j && KindOf(vs, ds[i].name) == kind ==> Rank(ds, vs, kind, i) < Rank(ds, vs, kind, j)
  {
    if i < j {
      RankStep(ds, vs, kind, i, j - 1);
    }
  }

  lemma {:induction false} RankHit(ds: seq<Disk>, vs: seq<Volume>, kind: Kind, r: nat, n: nat) returns (i: nat)
    requires n <= |ds| && r < Rank(ds, vs, kind, n)
    ensures i < n && KindOf(vs, ds[i].name) == kind && Rank(ds, vs, kind, i) == r
  {
    i := n - 1;
    if KindOf(vs, ds[i].name) != kind || Rank(ds, vs, kind, i) != r {
      i := RankHit(ds, vs, kind, r, n - 1);
    }
  }

  /** The override looks at names, devices and volumes only. */
  lemma OverrideIgnoresEarlierOrders(a: seq<Disk>, b: seq<Disk>, vs: seq<Volume>, target: string)
    requires SameShape(a, b)
    ensures Overridden(a, vs, target) == Overridden(b, vs, target)
  {
    forall i | 0 <= i < |a|
      ensures Overridden(a, vs, target)[i] == Overridden(b, vs, target)[i]
    {
      SameRanks(a, b, vs, Cd, i);
      SameRanks(a, b, vs, Hdd, i);
    }
  }

  lemma {:induction false} SameRanks(a: seq<Disk>, b: seq<Disk>, vs: seq<Volume>, kind: Kind, i: nat)
    requires SameShape(a, b) && i <= |a|
    ensures Rank(a, vs, kind, i) == Rank(b, vs, kind, i)
  {
    if i > 0 {
      SameRanks(a, b, vs, kind, i - 1);
    }
  }

  /**
   * Which disks get an order: under target Cd those of a cdrom volume and those of a data volume or container disk,
   * under target Hdd the latter only, under any other target none; a claim of another name makes no disk bootable.
   */
  lemma BootableIff(ds: seq<Disk>, vs: seq<Volume>, target: string, i: nat)
    requires i < |ds|
    ensures var cd, hdd := exists v :: v in vs && v.name == ds[i].name && HasPrefix(v.name, "cdrom"),
                           exists v :: v in vs && v.name == ds[i].name
                               && (v.source.DataVolume? || v.source.ContainerDisk?);
            Overridden(ds, vs, target)[i].bootOrder.Some? <==>
              (target == "Cd" && (cd || hdd)) || (target == "Hdd" && hdd && !cd)
    ensures Overridden(ds, vs, target)[i].(bootOrder := None) == ds[i].(bootOrder := None)
  {
  }

  /** Pigeonhole: with unique disk names there are no more CD disks than counted cdrom volumes. */
  lemma {:induction false} CdDisksFitCdVolumes(ds: seq<Disk>, vs: seq<Volume>)
    requires Distinct(DiskNames(ds))
    ensures Count(ds, vs, Cd) <= CdVolumes(vs)
  {
    var found := CdDiskNames(ds, vs, |ds|);
    DistinctWithin(found, CdVolumeNames(vs));
    CdVolumeNamesCounted(vs);
  }

  ghost function CdVolumeNames(vs: seq<Volume>): set<string> {
    set v | v in vs && IsCdVolume(v) :: v.name
  }

  lemma {:induction false} CdVolumeNamesCounted(vs: seq<Volume>)
    ensures |CdVolumeNames(vs)| <= CdVolumes(vs)
  {
    if vs != [] {
      var front, last := vs[..|vs| - 1], vs[|vs| - 1];
      assert vs == front + [last];
      CdVolumeNamesCounted(front);
      assert CdVolumeNames(vs) == CdVolumeNames(front) + if IsCdVolume(last) then {last.name} else {};
    }
  }

  /** The names of the CD disks among the first `n`, in order. */
  lemma {:induction false} CdDiskNames(ds: seq<Disk>, vs: seq<Volume>, n: nat) returns (names: seq<string>)
    requires n <= |ds| && Distinct(DiskNames(ds))
    ensures |names| == Rank(ds, vs, Cd, n) && Distinct(names)
    ensures forall x | x in names :: x in CdVolumeNames(vs) && exists i :: 0 <= i < n && ds[i].name == x
  {
    names := [];
    if n > 0 {
      names := CdDiskNames(ds, vs, n - 1);
      var name := ds[n - 1].name;
      if KindOf(vs, name) == Cd {
        forall i | 0 <= i < n - 1
          ensures ds[i].name != name
        {
          assert DiskNames(ds)[i] != DiskNames(ds)[n - 1];
        }
        assert name !in names;
        names := names + [name];
      }
    }
  }

  /** Two disks share an order exactly when an HDD lands among the CDs. */
  lemma OrdersDistinctIff(ds: seq<Disk>, vs: seq<Volume>, target: string)
    ensures OrdersDistinct(Overridden(ds, vs, target)) <==>
            (target == CD_TARGET && Count(ds, vs, Hdd) > 0 ==> Count(ds, vs, Cd) <= CdVolumes(vs))
  {
    var out := Overridden(ds, vs, target);
    if target == CD_TARGET && Count(ds, vs, Hdd) > 0 && Count(ds, vs, Cd) > CdVolumes(vs) {
      var c := RankHit(ds, vs, Cd, CdVolumes(vs), |ds|);
      var h := RankHit(ds, vs, Hdd, 0, |ds|);
      assert out[c].bootOrder == out[h].bootOrder && c != h;
    } else {
      forall i, j | 0 <= i < j < |ds| && out[i].bootOrder.Some?
        ensures out[i].bootOrder != out[j].bootOrder
      {
        var ki, kj := KindOf(vs, ds[i].name), KindOf(vs, ds[j].name);
        RankStep(ds, vs, ki, i, j);
        RankStep(ds, vs, ki, i, |ds|);
        RankStep(ds, vs, kj, j, |ds|);
      }
    }
  }

  /** With unique disk names: distinct orders, and under target Cd every CD boots before every HDD. */
  lemma OverrideSoundForUniqueNames(ds: seq<Disk>, vs: seq<Volume>, target: string)
    requires Distinct(DiskNames(ds))
    ensures var out := Overridden(ds, vs, target);
            && OrdersDistinct(out) && !HasOrder(out, 0)
            && (target == CD_TARGET ==>
                  forall c, h | 0 <= c < |ds| && 0 <= h < |ds|
                                && KindOf(vs, ds[c].name) == Cd && KindOf(vs, ds[h].name) == Hdd ::
                    out[c].bootOrder.Some? && out[h].bootOrder.Some?
                    && out[c].bootOrder.value < out[h].bootOrder.value)
  {
    CdDisksFitCdVolumes(ds, vs);
    OrdersDistinctIff(ds, vs, target);
    forall c | 0 <= c < |ds| && KindOf(vs, ds[c].name) == Cd
      ensures Rank(ds, vs, Cd, c) < CdVolumes(vs)
    {
      RankStep(ds, vs, Cd, c, |ds|);
    }
  }

  /** The orders are exactly 1..n unless a counted cdrom volume without a disk leaves a gap below the HDDs. */
  lemma OrdersContiguousIff(ds: seq<Disk>, vs: seq<Volume>, target: string)
    requires Distinct(DiskNames(ds))
    ensures OrdersContiguous(Overridden(ds, vs, target)) <==>
            (target == CD_TARGET && Count(ds, vs, Hdd) > 0 ==> Count(ds, vs, Cd) == CdVolumes(vs))
  {
    CdDisksFitCdVolumes(ds, vs);
    if target == CD_TARGET && Count(ds, vs, Hdd) > 0 && Count(ds, vs, Cd) != CdVolumes(vs) {
      GapBelowHdds(ds, vs);
    } else {
      var out := Overridden(ds, vs, target);
      forall m: nat, low: nat | HasOrder(out, m) && 1 <= low <= m
        ensures HasOrder(out, low)
      {
        var i :| 0 <= i < |out| && out[i].bootOrder == Some(m);
        var k := NoGapBelow(ds, vs, target, i, low);
        assert out[k].bootOrder == Some(low);
      }
    }
  }

  lemma GapBelowHdds(ds: seq<Disk>, vs: seq<Volume>)
    requires Count(ds, vs, Hdd) > 0 && Count(ds, vs, Cd) < CdVolumes(vs)
    ensures !OrdersContiguous(Overridden(ds, vs, CD_TARGET))
  {
    var out, c := Overridden(ds, vs, CD_TARGET), Count(ds, vs, Cd);
    var h := RankHit(ds, vs, Hdd, 0, |ds|);
    assert out[h].bootOrder == Some(CdVolumes(vs) + 1);
    assert HasOrder(out, CdVolumes(vs) + 1);
    forall i | 0 <= i < |ds|
      ensures out[i].bootOrder != Some(c + 1)
    {
      RankStep(ds, vs, Cd, i, |ds|);
    }
    assert !HasOrder(out, c + 1);
  }

  lemma NoGapBelow(ds: seq<Disk>, vs: seq<Volume>, target: string, i: nat, low: nat) returns (k: nat)
    requires i < |ds| && OrderAt(ds, vs, target, i).Some? && 1 <= low <= OrderAt(ds, vs, target, i).value
    requires target == CD_TARGET && Count(ds, vs, Hdd) > 0 ==> Count(ds, vs, Cd) == CdVolumes(vs)
    ensures k < |ds| && OrderAt(ds, vs, target, k) == Some(low)
  {
    var c := Count(ds, vs, Cd);
    RankStep(ds, vs, KindOf(vs, ds[i].name), i, |ds|);
    if target == CD_TARGET && low <= c {
      k := RankHit(ds, vs, Cd, low - 1, |ds|);
    } else if target == CD_TARGET {
      k := RankHit(ds, vs, Hdd, low - 1 - c, |ds|);
    } else {
      k := RankHit(ds, vs, Hdd, low - 1, |ds|);
    }
  }

  // ----- Snapshot and restore -----

  datatype DiskOrder = DiskOrder(diskName: string, order: Option<nat>)

  function Captured(ds: seq<Disk>): (orders: seq<DiskOrder>)
    ensures |orders| == |ds|
  {
    seq(|ds|, i requires 0 <= i < |ds| => DiskOrder(ds[i].name, ds[i].bootOrder))
  }

  /** The last entry for the name decides, as in the lookup map the code builds. */
  function SavedFor(orders: seq<DiskOrder>, name: string): Option<Option<nat>> {
    if orders == [] then None
    else if orders[|orders| - 1].diskName == name then Some(orders[|orders| - 1].order)
    else SavedFor(orders[..|orders| - 1], name)
  }

  function RestoredDisk(d: Disk, orders: seq<DiskOrder>): Disk {
    match SavedFor(orders, d.name)
    case Some(order) => d.(bootOrder := order)
    case None => d
  }

  function Restored(ds: seq<Disk>, orders: seq<DiskOrder>): (out: seq<Disk>)
    ensures SameShape(ds, out)
  {
    seq(|ds|, i requires 0 <= i < |ds| => RestoredDisk(ds[i], orders))
  }

  method CaptureBootOrder(disks: array<Disk>) returns (orders: seq<DiskOrder>)
    ensures orders == Captured(disks[..])
  {
    orders := [];
    for i := 0 to disks.Length
      invariant orders == Captured(disks[..i])
    {
      orders := orders + [DiskOrder(disks[i].name, disks[i].bootOrder)];
      assert disks[..i + 1] == disks[..i] + [disks[i]];
    }
    assert disks[..disks.Length] == disks[..];
  }

  method RestoreBootOrder(disks: array<Disk>, orders: seq<DiskOrder>)
    modifies disks
    ensures disks[..] == Restored(old(disks[..]), orders)
  {
    var byName: map<string, Option<nat>> := map[];
    for k := 0 to |orders|
      invariant forall n :: (if n in byName then Some(byName[n]) else None) == SavedFor(orders[..k], n)
    {
      byName := byName[orders[k].diskName := orders[k].order];
      assert orders[..k + 1][..k] == orders[..k];
    }
    assert orders[..|orders|] == orders;
    for i := 0 to disks.Length
      invariant forall j | i <= j < disks.Length :: disks[j] == old(disks[j])
      invariant forall j | 0 <= j < i :: disks[j] == RestoredDisk(old(disks[j]), orders)
    {
      if disks[i].name in byName {
        disks[i] := disks[i].(bootOrder := byName[disks[i].name]);
      }
    }
  }

  /** Disks that share a name share their order. */
  ghost predicate OrdersByName(ds: seq<Disk>) {
    forall i, j | 0 <= i < j < |ds| && ds[i].name == ds[j].name :: ds[i].bootOrder == ds[j].bootOrder
  }

  /** `SavedFor` of a snapshot is the order of the last disk of that name. */
  lemma {:induction false} SavedForCaptured(ds: seq<Disk>, name: string) returns (last: int)
    ensures last == -1 || (0 <= last < |ds| && ds[last].name == name)
    ensures forall j | last < j < |ds| :: ds[j].name != name
    ensures SavedFor(Captured(ds), name) == if last == -1 then None else Some(ds[last].bootOrder)
  {
    last := |ds| - 1;
    if ds != [] && ds[last].name != name {
      assert Captured(ds)[..last] == Captured(ds[..last]);
      last := SavedForCaptured(ds[..last], name);
    }
  }

  /**
   * Restoring a snapshot of `ds` gives `ds` back from any state that kept the disks,
   * whatever was written to the boot orders in between; this needs, and only needs,
   * that equally named disks had equal orders.
   */
  lemma RestoreUndoesIff(ds: seq<Disk>, now: seq<Disk>)
    requires SameShape(ds, now)
    ensures Restored(now, Captured(ds)) == ds <==> OrdersByName(ds)
  {
    forall i | 0 <= i < |ds|
      ensures OrdersByName(ds) ==> RestoredDisk(now[i], Captured(ds)) == ds[i]
    {
      var last := SavedForCaptured(ds, ds[i].name);
    }
    if Restored(now, Captured(ds)) == ds {
      forall i, j | 0 <= i < j < |ds| && ds[i].name == ds[j].name
        ensures ds[i].bootOrder == ds[j].bootOrder
      {
        var last := SavedForCaptured(ds, ds[i].name);
        assert Restored(now, Captured(ds))[i] == ds[i] && Restored(now, Captured(ds))[j] == ds[j];
      }
    }
  }

  /** The override is undone by restoring the snapshot taken before it. */
  lemma RestoreUndoesOverride(ds: seq<Disk>, vs: seq<Volume>, target: string)
    ensures Restored(Overridden(ds, vs, target), Captured(ds)) == ds <==> OrdersByName(ds)
  {
    RestoreUndoesIff(ds, Overridden(ds, vs, target));
  }
}
