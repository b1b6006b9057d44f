/** What becomes of one parked power command, with any number of watchers. */
module CommandFate {
  import opened Text
  import opened DeferredPower

  ghost predicate Writes(e: Event) {
    e.Write? && e.ok
  }

  /** The label goes: a boot-once cleanup wipes it, or a handler that read a command and no import removes it. */
  ghost predicate Clears(s: State, e: Event)
    requires Enabled(s, e)
  {
    e.LabelsWiped? || (e.Remove? && e.ok && s.handlers[e.watcher].command != ""
        && s.handlers[e.watcher].importing == {})
  }

  ghost predicate ByWatcher(e: Event, i: nat) {
    (e.Load? || e.Remove? || e.Execute?) && e.watcher == i
  }

  // ----- Single steps -----

  lemma ParkStep(s: State, e: Event)
    requires Enabled(s, e) && !Writes(e)
    ensures Next(s, e).writes == s.writes
    ensures Next(s, e).parked == if Clears(s, e) then "" else s.parked
  {
  }

  lemma WriteStep(s: State, e: Event)
    requires Enabled(s, e) && Writes(e) && Sound(s)
    ensures var t := Next(s, e);
            |t.writes| == |s.writes| + 1 && t.parked == t.writes[|s.writes|] && t.parked != ""
  {
  }

  lemma OtherHandlerStep(s: State, e: Event, i: nat)
    requires Enabled(s, e) && i < |s.handlers| && !ByWatcher(e, i)
    ensures i < |Next(s, e).handlers| && Next(s, e).handlers[i] == s.handlers[i]
  {
  }

  lemma ExecutionStep(s: State, e: Event)
    requires Enabled(s, e)
    ensures var t := Next(s, e);
            if e.Execute? then
              var h := s.handlers[e.watcher];
              t.executions == s.executions + [Execution(h.command, h.readAt, h.removedAt)]
            else t.executions == s.executions
  {
  }

  lemma RunStep(watchers: nat, ss: seq<State>, es: seq<Event>, k: nat)
    requires Run(watchers, ss, es) && k < |es|
    ensures Enabled(ss[k], es[k]) && ss[k + 1] == Next(ss[k], es[k])
  {
  }

  lemma {:induction false} WritesGrowIff(watchers: nat, ss: seq<State>, es: seq<Event>, a: nat, b: nat)
    requires Run(watchers, ss, es) && a <= b <= |es|
    ensures |ss[a].writes| <= |ss[b].writes|
    ensures |ss[a].writes| == |ss[b].writes| <==> forall m | a <= m < b :: !Writes(es[m])
  {
    if a < b {
      WritesGrowIff(watchers, ss, es, a, b - 1);
      RunStep(watchers, ss, es, b - 1);
      WriteCountStep(ss[b - 1], es[b - 1]);
    }
  }

  lemma WriteCountStep(s: State, e: Event)
    requires Enabled(s, e)
    ensures |Next(s, e).writes| == |s.writes| + if Writes(e) then 1 else 0
  {
  }

  // ----- How long a command stays parked -----

  ghost predicate ClearsAt(ss: seq<State>, es: seq<Event>, m: nat)
    requires m < |es| && m < |ss|
  {
    Enabled(ss[m], es[m]) && Clears(ss[m], es[m])
  }

  ghost predicate ParkStepIs(ss: seq<State>, es: seq<Event>, m: nat)
    requires m < |es| && m + 1 < |ss|
  {
    ss[m + 1].writes == ss[m].writes && ss[m + 1].parked == if ClearsAt(ss, es, m) then "" else ss[m].parked
  }

  lemma {:induction false} ParkedChain(ss: seq<State>, es: seq<Event>, k0: nat, k: nat)
    requires k0 < k <= |es| && |ss| == |es| + 1 && ss[k0 + 1].parked != ""
    requires forall m | k0 < m < k :: ParkStepIs(ss, es, m)
    ensures ss[k].writes == ss[k0 + 1].writes
    ensures ss[k].parked == if forall m | k0 < m < k :: !ClearsAt(ss, es, m) then ss[k0 + 1].parked else ""
  {
    if k > k0 + 1 {
      ParkedChain(ss, es, k0, k - 1);
      assert ParkStepIs(ss, es, k - 1);
    }
  }

  /** A command that no later write replaces stays parked exactly until a step that clears the label. */
  lemma ParkedUntilClearedIff(watchers: nat, ss: seq<State>, es: seq<Event>, k0: nat, k: nat)
    requires Run(watchers, ss, es) && k0 < k <= |es| && Writes(es[k0])
    requires forall m | k0 < m < k :: !Writes(es[m])
    ensures |ss[k].writes| == |ss[k0].writes| + 1 && ss[k].writes[|ss[k0].writes|] != ""
    ensures ss[k].parked == ss[k].writes[|ss[k0].writes|] <==> forall m | k0 < m < k :: !ClearsAt(ss, es, m)
    ensures ss[k].parked in {"", ss[k].writes[|ss[k0].writes|]}
  {
    RunStep(watchers, ss, es, k0);
    RunStaysSound(watchers, ss, es, k0);
    WriteStep(ss[k0], es[k0]);
    forall m | k0 < m < k
      ensures ParkStepIs(ss, es, m)
    {
      RunStep(watchers, ss, es, m);
      ParkStep(ss[m], es[m]);
    }
    ParkedChain(ss, es, k0, k);
  }

  // ----- When a command is issued -----

  /** Some execution issued the write with this index. */
  ghost predicate IssuedBy(s: State, n: nat) {
    exists x :: 0 <= x < |s.executions| && s.executions[x].readAt == n + 1
  }

  /**
   * Watcher `i` loads at `a` after the write at `k0`, while it is parked and nothing is imported, then removes the
   * label at `b` and issues the command at `q`.
   */
  ghost predicate Issues(ss: seq<State>, es: seq<Event>, k0: nat, k: nat, i: nat, a: nat, b: nat, q: nat)
    requires k <= |es| && |es| < |ss|
  {
    && k0 < a < b < q < k
    && es[a] == Load(i, true) && es[b] == Remove(i, true) && es[q] == Execute(i)
    && ss[a].importing == {}
    && (forall m | k0 < m < a :: !Writes(es[m]) && !ClearsAt(ss, es, m))
    && (forall m | a < m < q && m != b :: !ByWatcher(es[m], i))
  }

  lemma {:induction false} HandlerKept(watchers: nat, ss: seq<State>, es: seq<Event>, m: nat, k: nat, i: nat)
    requires Run(watchers, ss, es) && m <= k <= |es| && i < |ss[m].handlers|
    requires forall j | m <= j < k :: !ByWatcher(es[j], i)
    ensures i < |ss[k].handlers| && ss[k].handlers[i] == ss[m].handlers[i]
  {
    if m < k {
      HandlerKept(watchers, ss, es, m, k - 1, i);
      RunStep(watchers, ss, es, k - 1);
      OtherHandlerStep(ss[k - 1], es[k - 1], i);
    }
  }

  lemma {:induction false} ExecutionsKept(watchers: nat, ss: seq<State>, es: seq<Event>, m: nat, k: nat)
    requires Run(watchers, ss, es) && m <= k <= |es|
    ensures ss[m].executions <= ss[k].executions
  {
    if m < k {
      ExecutionsKept(watchers, ss, es, m, k - 1);
      RunStep(watchers, ss, es, k - 1);
      ExecutionStep(ss[k - 1], es[k - 1]);
    }
  }

  /** The step that issued an execution. */
  lemma {:induction false} ExecutedAt(watchers: nat, ss: seq<State>, es: seq<Event>, k: nat, x: nat) returns (q: nat)
    requires Run(watchers, ss, es) && k <= |es| && x < |ss[k].executions|
    ensures q < k && es[q].Execute? && es[q].watcher < |ss[q].handlers| && ss[q].handlers[es[q].watcher].Removed?
    ensures ss[q].handlers[es[q].watcher].readAt == ss[k].executions[x].readAt
    ensures ss[q].handlers[es[q].watcher].command == ss[k].executions[x].command
  {
    RunStep(watchers, ss, es, k - 1);
    ExecutionStep(ss[k - 1], es[k - 1]);
    if x < |ss[k - 1].executions| {
      q := ExecutedAt(watchers, ss, es, k - 1, x);
    } else {
      q := k - 1;
    }
  }

  /** A handler that holds its state from `m` on takes no step until `k`. */
  lemma NoStepWhileHolding(watchers: nat, ss: seq<State>, es: seq<Event>, m: nat, k: nat, i: nat, h: Handler)
    requires Run(watchers, ss, es) && m < k <= |es| && !h.Idle?
    requires forall j | m <= j <= k :: i < |ss[j].handlers| && ss[j].handlers[i] == h
    ensures forall j | m <= j < k :: !ByWatcher(es[j], i)
  {
    forall j | m <= j < k
      ensures !ByWatcher(es[j], i)
    {
      RunStep(watchers, ss, es, j);
      assert ss[j].handlers[i] == h && ss[j + 1].handlers[i] == h;
      if ByWatcher(es[j], i) {
        HolderSteps(ss[j], es[j], i);
      }
    }
  }

  lemma HolderSteps(s: State, e: Event, i: nat)
    requires Enabled(s, e) && i < |s.handlers| && !s.handlers[i].Idle? && ByWatcher(e, i)
    ensures Next(s, e).handlers[i] != s.handlers[i]
  {
  }

  /** An execution of the write traces back to a load, a removal and an issue. */
  lemma IssuedOnlySo(watchers: nat, ss: seq<State>, es: seq<Event>, k0: nat, k: nat, x: nat)
      returns (i: nat, a: nat, b: nat, q: nat)
    requires Run(watchers, ss, es) && k0 < k <= |es| && Writes(es[k0])
    requires x < |ss[k].executions| && ss[k].executions[x].readAt == |ss[k0].writes| + 1
    ensures Issues(ss, es, k0, k, i, a, b, q)
  {
    var n := |ss[k0].writes|;
    q := ExecutedAt(watchers, ss, es, k, x);
    i := es[q].watcher;
    b := RemovedAt(watchers, ss, es, q, i);
    a := LoadedAt(watchers, ss, es, b, i);
    if a <= k0 {
      WritesGrowIff(watchers, ss, es, a, k0);
      assert false;
    }
    WritesGrowIff(watchers, ss, es, k0, k0 + 1);
    RunStep(watchers, ss, es, k0);
    RunStaysSound(watchers, ss, es, k0);
    WriteStep(ss[k0], es[k0]);
    WritesGrowIff(watchers, ss, es, k0 + 1, a);
    ParkedUntilClearedIff(watchers, ss, es, k0, a);
    if a + 1 < b {
      NoStepWhileHolding(watchers, ss, es, a + 1, b, i, ss[b].handlers[i]);
    }
    if b + 1 < q {
      NoStepWhileHolding(watchers, ss, es, b + 1, q, i, ss[q].handlers[i]);
    }
  }

  lemma LoadStep(s: State, i: nat)
    requires Enabled(s, Load(i, true))
    ensures i < |Next(s, Load(i, true)).handlers|
    ensures Next(s, Load(i, true)).handlers[i] == Loaded(s.parked, s.importing, |s.writes|)
  {
  }

  lemma RemoveStep(s: State, i: nat)
    requires Enabled(s, Remove(i, true)) && s.handlers[i].command != "" && s.handlers[i].importing == {}
    ensures i < |Next(s, Remove(i, true)).handlers|
    ensures Next(s, Remove(i, true)).handlers[i] == Removed(s.handlers[i].command, s.handlers[i].readAt, |s.writes|)
  {
  }

  /** ... and such a load, removal and issue issue the command that was written. */
  lemma SoItIsIssued(watchers: nat, ss: seq<State>, es: seq<Event>, k0: nat, k: nat, i: nat, a: nat, b: nat, q: nat)
    requires Run(watchers, ss, es) && k0 < k <= |es| && Writes(es[k0]) && Issues(ss, es, k0, k, i, a, b, q)
    ensures |ss[q].executions| < |ss[k].executions|
    ensures ss[k].executions[|ss[q].executions|].readAt == |ss[k0].writes| + 1
    ensures |ss[k0].writes| < |ss[a].writes|
    ensures ss[k].executions[|ss[q].executions|].command == ss[a].parked == ss[a].writes[|ss[k0].writes|]
  {
    ParkedUntilClearedIff(watchers, ss, es, k0, a);
    RunStep(watchers, ss, es, a);
    LoadStep(ss[a], i);
    HandlerKept(watchers, ss, es, a + 1, b, i);
    RunStep(watchers, ss, es, b);
    RemoveStep(ss[b], i);
    HandlerKept(watchers, ss, es, b + 1, q, i);
    RunStep(watchers, ss, es, q);
    ExecutionStep(ss[q], es[q]);
    ExecutionsKept(watchers, ss, es, q + 1, k);
  }

  /**
   * A command that was parked is issued exactly if some watcher reads it, with no import under way, before another
   * command replaces it and before anything clears the label, and then succeeds in removing the label.
   */
  lemma CommandIssuedIff(watchers: nat, ss: seq<State>, es: seq<Event>, k0: nat, k: nat)
    requires Run(watchers, ss, es) && k0 < k <= |es| && Writes(es[k0])
    ensures IssuedBy(ss[k], |ss[k0].writes|) <==> exists i, a, b, q :: Issues(ss, es, k0, k, i, a, b, q)
  {
    if IssuedBy(ss[k], |ss[k0].writes|) {
      var x :| 0 <= x < |ss[k].executions| && ss[k].executions[x].readAt == |ss[k0].writes| + 1;
      var i, a, b, q := IssuedOnlySo(watchers, ss, es, k0, k, x);
    }
    if i, a, b, q :| Issues(ss, es, k0, k, i, a, b, q) {
      SoItIsIssued(watchers, ss, es, k0, k, i, a, b, q);
    }
  }
}
