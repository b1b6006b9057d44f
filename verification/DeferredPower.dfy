/**
 * Power commands parked while an image is imported: requests that check and then write a label, and watchers
 * that read the machine, remove the label and issue the command, as separate steps that interleave freely.
 */
module DeferredPower {
  import opened Text
  import ImportLabels

  const RESET_TYPES := {"On", "ForceOff", "GracefulShutdown", "ForceRestart", "GracefulRestart", "Pause", "Resume"}

  /** What a handler has read or done; `readAt` and `removedAt` are the numbers of label writes so far. */
  datatype Handler =
    | Idle
    | Loaded(command: string, importing: set<string>, readAt: nat)
    | Removed(command: string, readAt: nat, removedAt: nat)

  datatype Execution = Execution(command: string, readAt: nat, removedAt: nat)

  /**
   * One machine: the devices with an importing label, the parked command, the requests that saw an import and
   * have yet to write, one handler per watcher, and the histories of label writes, deferred and direct commands.
   */
  datatype State = State(
    importing: set<string>, parked: string, pending: map<nat, string>, handlers: seq<Handler>,
    writes: seq<string>, executions: seq<Execution>, direct: seq<string>)

  /** LabelsWiped is the patch of a boot-once cleanup that had read the machine without any other label. */
  datatype Event =
    | ImportStarts(device: string)
    | ImportEnds(device: string)
    | LabelsWiped
    | Check(request: nat, command: string, ok: bool)
    | Write(request: nat, ok: bool)
    | Load(watcher: nat, ok: bool)
    | Remove(watcher: nat, ok: bool)
    | Execute(watcher: nat)

  ghost predicate Enabled(s: State, e: Event) {
    match e
    case Check(r, _, _) => r !in s.pending
    case Write(r, _) => r in s.pending
    case Load(i, _) => i < |s.handlers| && s.handlers[i].Idle?
    case Remove(i, _) => i < |s.handlers| && s.handlers[i].Loaded?
    case Execute(i) => i < |s.handlers| && s.handlers[i].Removed?
    case _ => true
  }

  ghost function Next(s: State, e: Event): State
    requires Enabled(s, e)
  {
    match e
    case ImportStarts(d) => s.(importing := s.importing + {d})
    case ImportEnds(d) => s.(importing := s.importing - {d})
    case LabelsWiped => s.(importing := {}, parked := "")
    case Check(r, command, ok) =>
      if command !in RESET_TYPES || !ok then s
      else if s.importing != {} then s.(pending := s.pending[r := command])
      else s.(direct := s.direct + [command])
    case Write(r, ok) =>
      var answered := s.(pending := s.pending - {r});
      if ok then answered.(parked := s.pending[r], writes := s.writes + [s.pending[r]]) else answered
    case Load(i, ok) =>
      if ok then s.(handlers := s.handlers[i := Loaded(s.parked, s.importing, |s.writes|)]) else s
    case Remove(i, ok) =>
      var h := s.handlers[i];
      if h.command == "" || h.importing != {} || !ok then s.(handlers := s.handlers[i := Idle])
      else s.(parked := "", handlers := s.handlers[i := Removed(h.command, h.readAt, |s.writes|)])
    case Execute(i) =>
      var h := s.handlers[i];
      s.(handlers := s.handlers[i := Idle], executions := s.executions + [Execution(h.command, h.readAt, h.removedAt)])
  }

  ghost predicate Initial(s: State) {
    && s.parked == "" && s.pending == map[] && s.writes == [] && s.executions == []
    && forall i | 0 <= i < |s.handlers| :: s.handlers[i].Idle?
  }

  /** A run with this many watchers on the machine's namespace. */
  ghost predicate Run(watchers: nat, ss: seq<State>, es: seq<Event>) {
    && |ss| == |es| + 1
    && Initial(ss[0]) && |ss[0].handlers| == watchers
    && forall k | 0 <= k < |es| :: Enabled(ss[k], es[k]) && ss[k + 1] == Next(ss[k], es[k])
  }

  datatype Reply = BadRequest | InternalError | Accepted | Completed

  class Machine {
    var s: State

    constructor (s: State)
      ensures this.s == s
    {
      this.s := s;
    }

    /** handlePowerAction, undisturbed: the check, and the label write if an import runs. */
    method HandlePowerAction(request: nat, command: string, checkOk: bool, writeOk: bool, issueOk: bool)
        returns (reply: Reply)
      requires request !in s.pending
      modifies this
      ensures s == var checked := Next(old(s), Check(request, command, checkOk));
                   if request in checked.pending then Next(checked, Write(request, writeOk)) else checked
      ensures reply == BadRequest <==>
              command !in {"On", "ForceOff", "GracefulShutdown", "ForceRestart", "GracefulRestart", "Pause", "Resume"}
      ensures reply == Accepted <==> command in RESET_TYPES && checkOk && old(s.importing) != {} && writeOk
      ensures reply == Completed <==> command in RESET_TYPES && checkOk && old(s.importing) == {} && issueOk
      ensures reply == Accepted <==> s.writes == old(s.writes) + [command]
      ensures reply == BadRequest ==> s == old(s)
      ensures s.direct == old(s.direct) + (if command in RESET_TYPES && checkOk && old(s.importing) == {} then [command]
                                           else [])
      ensures reply == Accepted ==> s.parked == command && old(s.importing) != {}
      ensures reply == Completed ==> s.direct == old(s.direct) + [command] && old(s.importing) == {}
      ensures s.importing == old(s.importing) && s.pending == old(s.pending) && s.executions == old(s.executions)
    {
      if command !in RESET_TYPES {
        return BadRequest;
      }
      if !checkOk {
        return InternalError;
      }
      if s.importing != {} {
        assert old(s.pending)[request := command] - {request} == old(s.pending);
        if !writeOk {
          return InternalError;
        }
        s := s.(parked := command, writes := s.writes + [command]);
        return Accepted;
      }
      s := s.(direct := s.direct + [command]);
      reply := if issueOk then Completed else InternalError;
    }

    /** handlePowerAfterImport on a machine just read, undisturbed. */
    method HandlePowerAfterImport(watcher: nat, readOk: bool, removeOk: bool)
      requires watcher < |s.handlers| && s.handlers[watcher].Idle?
      modifies this
      ensures s == if !readOk then old(s) else
                   var removed := Next(Next(old(s), Load(watcher, true)), Remove(watcher, removeOk));
                   if removed.handlers[watcher].Removed? then Next(removed, Execute(watcher)) else removed
      ensures s.handlers == old(s.handlers)
    {
      ghost var idle := s.handlers;
      if readOk {
        var command := s.parked;
        if command != "" && s.importing == {} && removeOk {
          s := s.(parked := "");
          s := s.(executions := s.executions + [Execution(command, |s.writes|, |s.writes|)]);
        }
        assert idle == idle[watcher := Idle];
      }
    }
  }

  // ----- Any number of watchers -----

  ghost predicate Sound(s: State) {
    && (forall r | r in s.pending :: s.pending[r] != "")
    && (forall k | 0 <= k < |s.writes| :: s.writes[k] != "")
    && (s.parked != "" ==> s.writes != [] && s.parked == s.writes[|s.writes| - 1])
  }

  lemma {:induction false} RunStaysSound(watchers: nat, ss: seq<State>, es: seq<Event>, k: nat)
    requires Run(watchers, ss, es) && k <= |es|
    ensures Sound(ss[k]) && |ss[k].handlers| == watchers
  {
    if k > 0 {
      RunStaysSound(watchers, ss, es, k - 1);
      assert es[k - 1].Check? ==> "" !in RESET_TYPES;
    }
  }

  /** The step at which a handler read what it holds. */
  lemma {:induction false} LoadedAt(watchers: nat, ss: seq<State>, es: seq<Event>, k: nat, i: nat) returns (a: nat)
    requires Run(watchers, ss, es) && k <= |es| && i < |ss[k].handlers| && ss[k].handlers[i].Loaded?
    ensures a < k && es[a] == Load(i, true)
    ensures var h := ss[k].handlers[i];
            h.command == ss[a].parked && h.importing == ss[a].importing && h.readAt == |ss[a].writes|
    ensures forall m | a < m <= k :: i < |ss[m].handlers| && ss[m].handlers[i] == ss[k].handlers[i]
  {
    assert Enabled(ss[k - 1], es[k - 1]) && ss[k] == Next(ss[k - 1], es[k - 1]);
    if es[k - 1] == Load(i, true) {
      a := k - 1;
    } else {
      assert ss[k - 1].handlers[i] == ss[k].handlers[i];
      a := LoadedAt(watchers, ss, es, k - 1, i);
    }
  }

  /** The step at which a handler removed the label. */
  lemma {:induction false} RemovedAt(watchers: nat, ss: seq<State>, es: seq<Event>, k: nat, i: nat) returns (b: nat)
    requires Run(watchers, ss, es) && k <= |es| && i < |ss[k].handlers| && ss[k].handlers[i].Removed?
    ensures b < k && es[b] == Remove(i, true) && i < |ss[b].handlers| && ss[b].handlers[i].Loaded?
    ensures var h, read := ss[k].handlers[i], ss[b].handlers[i];
            && h.command == read.command && h.readAt == read.readAt && h.removedAt == |ss[b].writes|
            && read.command != "" && read.importing == {}
    ensures forall m | b < m <= k :: i < |ss[m].handlers| && ss[m].handlers[i] == ss[k].handlers[i]
  {
    assert Enabled(ss[k - 1], es[k - 1]) && ss[k] == Next(ss[k - 1], es[k - 1]);
    if es[k - 1] == Remove(i, true) {
      b := k - 1;
    } else {
      assert ss[k - 1].handlers[i] == ss[k].handlers[i];
      b := RemovedAt(watchers, ss, es, k - 1, i);
    }
  }

  /**
   * Every deferred command was read by its handler, at a step `a`, from a machine with no importing label whose
   * label was then the last one written; the handler removed the label at a later step `b` and only then issued it.
   */
  lemma ExecutionComesFromAQuietMachine(watchers: nat, ss: seq<State>, es: seq<Event>, k: nat) returns (a: nat, b: nat)
    requires Run(watchers, ss, es) && k < |es| && es[k].Execute?
    ensures a < b < k && es[a] == Load(es[k].watcher, true) && es[b] == Remove(es[k].watcher, true)
    ensures ss[a].importing == {} && ss[a].parked != ""
    ensures ss[a].writes != [] && ss[a].parked == ss[a].writes[|ss[a].writes| - 1]
    ensures |ss[k + 1].executions| == |ss[k].executions| + 1
    ensures ss[k + 1].executions[|ss[k].executions|] == Execution(ss[a].parked, |ss[a].writes|, |ss[b].writes|)
  {
    b := RemovedAt(watchers, ss, es, k, es[k].watcher);
    a := LoadedAt(watchers, ss, es, b, es[k].watcher);
    RunStaysSound(watchers, ss, es, a);
  }

  // ----- One watcher -----

  function LastRemoval(s: State): nat {
    if s.executions == [] then 0 else s.executions[|s.executions| - 1].removedAt
  }

  /** Reads and removals of successive executions alternate, each read after a write that follows the last removal. */
  ghost predicate Alternating(s: State) {
    && (forall x | 0 <= x < |s.executions| ::
         && 0 < s.executions[x].readAt <= s.executions[x].removedAt <= |s.writes|
         && s.executions[x].command == s.writes[s.executions[x].readAt - 1])
    && (forall x, y | 0 <= x < y < |s.executions| :: s.executions[x].removedAt < s.executions[y].readAt)
  }

  ghost predicate HandlerInStep(s: State)
    requires |s.handlers| == 1
  {
    match s.handlers[0]
    case Idle => s.parked != "" ==> LastRemoval(s) < |s.writes|
    case Loaded(command, _, readAt) =>
      && readAt <= |s.writes|
      && (s.parked != "" ==> LastRemoval(s) < |s.writes|)
      && (command != "" ==> LastRemoval(s) < readAt && command == s.writes[readAt - 1])
    case Removed(command, readAt, removedAt) =>
      && LastRemoval(s) < readAt <= removedAt <= |s.writes| && command == s.writes[readAt - 1]
      && (s.parked != "" ==> removedAt < |s.writes|)
  }

  lemma StepAlternates(s: State, e: Event)
    requires |s.handlers| == 1 && Enabled(s, e) && Sound(s) && Alternating(s) && HandlerInStep(s)
    ensures Alternating(Next(s, e)) && HandlerInStep(Next(s, e))
  {
    if e.Execute? {
      ExecuteAlternates(s, e);
    } else if e.Write? {
      WriteAlternates(s, e);
    } else if e.Remove? {
      RemoveAlternates(s, e);
    } else if e.Load? {
      LoadAlternates(s, e);
    } else {
      QuietStepAlternates(s, e);
    }
  }

  /** What counts here depends on the handlers, the label and the two histories only. */
  lemma SameHistory(s: State, t: State)
    requires |s.handlers| == 1 && Alternating(s) && HandlerInStep(s)
    requires t.handlers == s.handlers && t.writes == s.writes && t.executions == s.executions
        && t.parked in {"", s.parked}
    ensures Alternating(t) && HandlerInStep(t)
  {
  }

  lemma QuietStepAlternates(s: State, e: Event)
    requires |s.handlers| == 1 && Enabled(s, e) && Alternating(s) && HandlerInStep(s)
    requires e.ImportStarts? || e.ImportEnds? || e.LabelsWiped? || e.Check?
    ensures Alternating(Next(s, e)) && HandlerInStep(Next(s, e))
  {
    SameHistory(s, Next(s, e));
  }

  lemma LoadAlternates(s: State, e: Event)
    requires |s.handlers| == 1 && Enabled(s, e) && Sound(s) && Alternating(s) && HandlerInStep(s) && e.Load?
    ensures Alternating(Next(s, e)) && HandlerInStep(Next(s, e))
  {
  }

  lemma RemoveAlternates(s: State, e: Event)
    requires |s.handlers| == 1 && Enabled(s, e) && Sound(s) && Alternating(s) && HandlerInStep(s) && e.Remove?
    ensures Alternating(Next(s, e)) && HandlerInStep(Next(s, e))
  {
  }

  lemma ExecuteAlternates(s: State, e: Event)
    requires |s.handlers| == 1 && Enabled(s, e) && Alternating(s) && HandlerInStep(s) && e.Execute?
    ensures Alternating(Next(s, e)) && HandlerInStep(Next(s, e))
  {
    var h := s.handlers[0];
    HistoryGrows(s, Next(s, e), Execution(h.command, h.readAt, h.removedAt));
  }

  lemma HistoryGrows(s: State, t: State, x: Execution)
    requires Alternating(s) && t.writes == s.writes && t.executions == s.executions + [x]
    requires LastRemoval(s) < x.readAt <= x.removedAt <= |s.writes| && x.command == s.writes[x.readAt - 1]
    ensures Alternating(t) && LastRemoval(t) == x.removedAt
  {
    var n := |s.executions|;
    assert forall i | 0 <= i < n :: t.executions[i] == s.executions[i];
    assert n > 0 ==> forall i | 0 <= i < n :: s.executions[i].removedAt <= s.executions[n - 1].removedAt;
  }

  lemma WriteAlternates(s: State, e: Event)
    requires |s.handlers| == 1 && Enabled(s, e) && Sound(s) && Alternating(s) && HandlerInStep(s) && e.Write?
    ensures Alternating(Next(s, e)) && HandlerInStep(Next(s, e))
  {
  }

  lemma {:induction false} OneWatcherAlternates(ss: seq<State>, es: seq<Event>, k: nat)
    requires Run(1, ss, es) && k <= |es|
    ensures |ss[k].handlers| == 1 && Alternating(ss[k]) && HandlerInStep(ss[k])
  {
    RunStaysSound(1, ss, es, k);
    if k > 0 {
      OneWatcherAlternates(ss, es, k - 1);
      RunStaysSound(1, ss, es, k - 1);
      StepAlternates(ss[k - 1], es[k - 1]);
    }
  }

  /** No two executions issue the same write, so there are never more executions than writes. */
  ghost predicate AtMostOncePerWrite(s: State) {
    && |s.executions| <= |s.writes|
    && forall x, y | 0 <= x < y < |s.executions| :: s.executions[x].readAt != s.executions[y].readAt
  }

  lemma {:induction false} ReadsOutrunCount(s: State, x: nat)
    requires Alternating(s) && x < |s.executions|
    ensures x < s.executions[x].readAt
  {
    if x > 0 {
      ReadsOutrunCount(s, x - 1);
    }
  }

  lemma AlternatingIsAtMostOnce(s: State)
    requires Alternating(s)
    ensures AtMostOncePerWrite(s)
  {
    if s.executions != [] {
      ReadsOutrunCount(s, |s.executions| - 1);
    }
  }

  /** With one watcher a write that lands between a handler's read and its removal is never issued. */
  lemma WriteBetweenReadAndRemovalIsLost(ss: seq<State>, es: seq<Event>, k: nat, x: nat, lost: nat)
    requires Run(1, ss, es) && k <= |es| && x < |ss[k].executions|
    requires ss[k].executions[x].readAt <= lost < ss[k].executions[x].removedAt
    ensures forall y | 0 <= y < |ss[k].executions| :: ss[k].executions[y].readAt - 1 != lost
  {
    OneWatcherAlternates(ss, es, k);
  }

  // ----- A label map wiped by a boot-once cleanup -----

  /** Nothing that the first `n` writes parked can be issued after the first `done` executions. */
  ghost predicate Forgotten(s: State, n: nat, done: nat) {
    && n <= |s.writes| && done <= |s.executions|
    && (s.parked != "" ==> n < |s.writes|)
    && (forall h | h in s.handlers && !h.Idle? && h.command != "" :: n < h.readAt)
    && (forall x | done <= x < |s.executions| :: n < s.executions[x].readAt)
  }

  lemma ForgottenStep(s: State, e: Event, n: nat, done: nat)
    requires Enabled(s, e) && Sound(s) && Forgotten(s, n, done)
    requires forall h | h in s.handlers && h.Removed? :: h.command != ""
    ensures Forgotten(Next(s, e), n, done)
  {
    var t := Next(s, e);
    forall h | h in t.handlers && !h.Idle? && h.command != ""
      ensures n < h.readAt
    {
      assert h in s.handlers || (e.Load? && h == Loaded(s.parked, s.importing, |s.writes|))
             || (e.Remove? && s.handlers[e.watcher] in s.handlers && h.readAt == s.handlers[e.watcher].readAt);
    }
  }

  lemma {:induction false} RemovedHoldsCommand(watchers: nat, ss: seq<State>, es: seq<Event>, k: nat)
    requires Run(watchers, ss, es) && k <= |es|
    ensures forall h | h in ss[k].handlers && h.Removed? :: h.command != ""
  {
    if k > 0 {
      RemovedHoldsCommand(watchers, ss, es, k - 1);
      assert ss[k] == Next(ss[k - 1], es[k - 1]);
      forall h | h in ss[k].handlers && h.Removed?
        ensures h.command != ""
      {
        assert h in ss[k - 1].handlers || es[k - 1].Remove?;
      }
    }
  }

  lemma StaysForgotten(watchers: nat, ss: seq<State>, es: seq<Event>, k: nat, n: nat, done: nat)
    requires Run(watchers, ss, es) && k < |es| && Forgotten(ss[k], n, done)
    ensures Forgotten(ss[k + 1], n, done)
  {
    RunStaysSound(watchers, ss, es, k);
    RemovedHoldsCommand(watchers, ss, es, k);
    ForgottenStep(ss[k], es[k], n, done);
  }

  lemma WipeForgets(s: State)
    requires forall h | h in s.handlers :: h.Idle?
    ensures Forgotten(Next(s, LabelsWiped), |s.writes|, |s.executions|)
  {
  }

  /**
   * With any number of watchers: a parked command whose label is wiped while no handler is at work is never
   * issued, although its client was told that it is deferred.
   */
  lemma {:induction false} WipedCommandIsNeverIssued(watchers: nat, ss: seq<State>, es: seq<Event>, k: nat, later: nat)
    requires Run(watchers, ss, es) && k < later <= |es| && es[k] == LabelsWiped
    requires forall h | h in ss[k].handlers :: h.Idle?
    ensures Forgotten(ss[later], |ss[k].writes|, |ss[k].executions|)
  {
    if later == k + 1 {
      WipeForgets(ss[k]);
    } else {
      WipedCommandIsNeverIssued(watchers, ss, es, k, later - 1);
      StaysForgotten(watchers, ss, es, later - 1, |ss[k].writes|, |ss[k].executions|);
    }
  }

  // ----- Several watchers -----

  function RepeatStates(watchers: nat): seq<State>
    requires watchers >= 2
  {
    var c, idle := "ForceRestart", seq(watchers, _ => Idle);
    var loaded, removed, issued := Loaded(c, {}, 1), Removed(c, 1, 1), Execution(c, 1, 1);
    var parked, clear := State({}, c, map[], idle, [c], [], []), State({}, "", map[], idle, [c], [], []);
    [State({"cdrom0"}, "", map[], idle, [], [], []),
     State({"cdrom0"}, "", map[0 := c], idle, [], [], []),
     State({"cdrom0"}, c, map[], idle, [c], [], []),
     parked,
     parked.(handlers := idle[0 := loaded]),
     parked.(handlers := idle[0 := loaded][1 := loaded]),
     clear.(handlers := idle[0 := removed][1 := loaded]),
     clear.(handlers := idle[0 := removed][1 := removed]),
     clear.(handlers := idle[1 := removed], executions := [issued]),
     clear.(executions := [issued, issued])]
  }

  function RepeatEvents(): seq<Event> {
    [Check(0, "ForceRestart", true), Write(0, true), ImportEnds("cdrom0"),
     Load(0, true), Load(1, true), Remove(0, true), Remove(1, true), Execute(0), Execute(1)]
  }

  lemma RepeatStep(watchers: nat, k: nat)
    requires watchers >= 2 && k < 5
    ensures var ss, e := RepeatStates(watchers), RepeatEvents()[k];
            Enabled(ss[k], e) && ss[k + 1] == Next(ss[k], e)
  {
  }

  lemma LaterRepeatStep(watchers: nat, k: nat)
    requires watchers >= 2 && 5 <= k < 9
    ensures var ss, e := RepeatStates(watchers), RepeatEvents()[k];
            Enabled(ss[k], e) && ss[k + 1] == Next(ss[k], e)
  {
    var ss := RepeatStates(watchers);
    if k == 7 {
      assert ss[7].handlers[0 := Idle] == ss[8].handlers;
    } else if k == 8 {
      assert ss[8].handlers[1 := Idle] == ss[9].handlers;
    }
  }

  /** Two watchers can issue one write twice. */
  lemma TwoWatchersCanRepeat(watchers: nat) returns (ss: seq<State>, es: seq<Event>)
    requires watchers >= 2
    ensures Run(watchers, ss, es) && !AtMostOncePerWrite(ss[|es|])
  {
    ss, es := RepeatStates(watchers), RepeatEvents();
    forall k | 0 <= k < |es|
      ensures Enabled(ss[k], es[k]) && ss[k + 1] == Next(ss[k], es[k])
    {
      if k < 5 {
        RepeatStep(watchers, k);
      } else {
        LaterRepeatStep(watchers, k);
      }
    }
  }

  /** Every run with this many watchers issues each write at most once. */
  ghost predicate NeverRepeats(watchers: nat) {
    forall ss, es, k: nat | Run(watchers, ss, es) && k <= |es| :: AtMostOncePerWrite(ss[k])
  }

  /** Every run issues each write at most once exactly if at most one watcher serves the namespace. */
  lemma AtMostOncePerWriteIff(watchers: nat)
    ensures NeverRepeats(watchers) <==> watchers <= 1
  {
    if watchers >= 2 {
      var ss, es := TwoWatchersCanRepeat(watchers);
    } else {
      forall ss, es, k: nat | Run(watchers, ss, es) && k <= |es|
        ensures AtMostOncePerWrite(ss[k])
      {
        if watchers == 1 {
          OneWatcherAlternates(ss, es, k);
          AlternatingIsAtMostOnce(ss[k]);
        } else {
          NoWatcherNoExecution(ss, es, k);
        }
      }
    }
  }

  lemma {:induction false} NoWatcherNoExecution(ss: seq<State>, es: seq<Event>, k: nat)
    requires Run(0, ss, es) && k <= |es|
    ensures ss[k].executions == [] && ss[k].handlers == []
  {
    if k > 0 {
      NoWatcherNoExecution(ss, es, k - 1);
    }
  }

  // ----- The uninterrupted handler -----

  /** Undisturbed and with every call succeeding, the three steps are what the sweep's handler does at once. */
  lemma UninterruptedHandlerIsAtomic(s: State, i: nat, w: ImportLabels.World, vm: string)
    requires i < |s.handlers| && s.handlers[i].Idle?
    requires vm in w.vms && w.vms[vm].importing.Keys == s.importing && w.vms[vm].power == s.parked
    ensures var loaded := Next(s, Load(i, true));
            var removed := Next(loaded, Remove(i, true));
            var done := if removed.handlers[i].Removed? then Next(removed, Execute(i)) else removed;
            var r := ImportLabels.PowerHandled(w, vm);
            && r.vms[vm].power == done.parked && r.vms[vm].importing.Keys == done.importing
            && done.handlers == s.handlers
            && |done.executions| - |s.executions| == |r.issued| - |w.issued|
            && (|r.issued| > |w.issued| ==>
                 r.issued == w.issued + [ImportLabels.Issued(vm, done.executions[|s.executions|].command)])
  {
    var l := w.vms[vm];
    assert l.importing == map[] <==> l.importing.Keys == {};
  }
}
