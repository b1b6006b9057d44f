/**
 * The login limiter with the two locked sections of a request apart: the check, and, after the credentials were looked
 * at, the update, each with its own clock reading. Other requests, also of the same client, come in between.
 */
module LoginOverlap {
  import opened Text
  import opened LoginLimiter

  /**
   * `full` is the table of a limiter that gets the same calls and never deletes an entry. `pending`: the clients of
   * the requests that were let through and are not answered yet. `now`: the latest clock reading.
   */
  datatype State = State(table: Table, full: Table, pending: map<nat, string>, now: int)

  /** Leave ends a request without an update: access to the chassis is denied. */
  datatype Event =
    | Check(id: nat, ip: string, now: int)
    | Update(id: nat, success: bool, now: int)
    | Leave(id: nat)

  ghost predicate Enabled(s: State, e: Event) {
    match e
    case Check(id, _, now) => id !in s.pending && s.now <= now
    case Update(id, _, now) => id in s.pending && s.now <= now
    case Leave(id) => id in s.pending
  }

  ghost function Next(cfg: Config, s: State, e: Event): State
    requires Enabled(s, e)
  {
    match e
    case Check(id, ip, now) =>
      State(Checked(cfg, s.table, ip, now, true), Checked(cfg, s.full, ip, now, false),
            if Limited(s.table, ip, now) then s.pending else s.pending[id := ip], now)
    case Update(id, success, now) =>
      var ip := s.pending[id];
      State(Updated(cfg, s.table, ip, success, now), Updated(cfg, s.full, ip, success, now), s.pending - {id}, now)
    case Leave(id) => s.(pending := s.pending - {id})
  }

  ghost predicate Initial(s: State) {
    s.table == map[] && s.full == map[] && s.pending == map[]
  }

  ghost predicate Run(cfg: Config, ss: seq<State>, es: seq<Event>) {
    && |ss| == |es| + 1 && Initial(ss[0])
    && forall k | 0 <= k < |es| :: Enabled(ss[k], es[k]) && ss[k + 1] == Next(cfg, ss[k], es[k])
  }

  lemma RunStep(cfg: Config, ss: seq<State>, es: seq<Event>, k: nat)
    requires Run(cfg, ss, es) && k < |es|
    ensures Enabled(ss[k], es[k]) && ss[k + 1] == Next(cfg, ss[k], es[k])
  {
  }

  ghost predicate Updates(s: State, e: Event, ip: string) {
    e.Update? && e.id in s.pending && s.pending[e.id] == ip
  }

  ghost predicate Concerns(s: State, e: Event, ip: string) {
    (e.Check? && e.ip == ip) || Updates(s, e, ip)
  }

  lemma {:induction false} ClockAdvances(cfg: Config, ss: seq<State>, es: seq<Event>, i: nat, k: nat)
    requires Run(cfg, ss, es) && i <= k <= |es|
    ensures ss[i].now <= ss[k].now
  {
    if i < k {
      ClockAdvances(cfg, ss, es, i, k - 1);
      RunStep(cfg, ss, es, k - 1);
    }
  }

  // ----- When the cleanup shows -----

  ghost predicate Agreed(cfg: Config, s: State) {
    Agree(cfg, s.table, s.full, s.now)
  }

  /** A failed update that finds failures of its client deleted. */
  ghost predicate Forgets(s: State, e: Event) {
    e.Update? && !e.success && e.id in s.pending && Deleted(s.table, s.full, s.pending[e.id])
  }

  lemma StepAgreesIff(cfg: Config, s: State, e: Event)
    requires Enabled(s, e) && Agreed(cfg, s)
    ensures Agreed(cfg, Next(cfg, s, e)) <==> !Forgets(s, e)
  {
    match e
    case Check(_, ip, now) => CheckKeepsAgreement(cfg, s.table, s.full, ip, now, s.now);
    case Update(id, success, now) =>
      UpdateKeepsAgreementIff(cfg, s.table, s.full, s.pending[id], success, now, s.now);
    case Leave(_) =>
  }

  /**
   * The cleanup of another request deletes an entry with failures at step `m`, and nothing of the client happens from
   * there to step `k`.
   */
  ghost predicate LostSince(ss: seq<State>, es: seq<Event>, m: int, k: nat, ip: string)
    requires |ss| == |es| + 1 && k <= |es|
  {
    && 0 <= m < k
    && ip in ss[m].table && ss[m].table[ip].failures > 0 && ip !in ss[m + 1].table
    && forall j | m <= j < k :: !Concerns(ss[j], es[j], ip)
  }

  ghost predicate Lost(ss: seq<State>, es: seq<Event>, k: nat, ip: string)
    requires |ss| == |es| + 1 && k <= |es|
  {
    exists m :: LostSince(ss, es, m, k, ip)
  }

  lemma OtherStep(cfg: Config, s: State, e: Event, ip: string)
    requires Enabled(s, e) && !Concerns(s, e, ip)
    ensures var n := Next(cfg, s, e);
            && (ip in n.full <==> ip in s.full) && (ip in n.full ==> n.full[ip] == s.full[ip])
            && (ip in n.table ==> ip in s.table && n.table[ip] == s.table[ip])
  {
  }

  /** The client's own step leaves no deleted failures. */
  lemma OwnStep(cfg: Config, s: State, e: Event, ip: string)
    requires Enabled(s, e) && Concerns(s, e, ip) && Agreed(cfg, s)
    ensures !Deleted(Next(cfg, s, e).table, Next(cfg, s, e).full, ip)
  {
    if e.Check? {
      if Limited(s.table, ip, e.now) {
        assert ip in Next(cfg, s, e).table;
      } else {
        OwnCheckResets(cfg, s.table, s.full, ip, e.now, s.now);
      }
    }
  }

  /** In terms of the limiter's own table: failures are missing exactly if they were lost since. */
  lemma {:induction false} DeletedIffLost(cfg: Config, ss: seq<State>, es: seq<Event>, k: nat, ip: string)
    requires Run(cfg, ss, es) && k <= |es| && forall m | 0 <= m <= k :: Agreed(cfg, ss[m])
    ensures Deleted(ss[k].table, ss[k].full, ip) <==> Lost(ss, es, k, ip)
  {
    if k > 0 {
      var s, e := ss[k - 1], es[k - 1];
      RunStep(cfg, ss, es, k - 1);
      assert Agreed(cfg, s);
      if Concerns(s, e, ip) {
        OwnStep(cfg, s, e, ip);
      } else {
        DeletedIffLost(cfg, ss, es, k - 1, ip);
        OtherStep(cfg, s, e, ip);
        LostStep(cfg, ss, es, k - 1, ip);
      }
    }
  }

  lemma LostStep(cfg: Config, ss: seq<State>, es: seq<Event>, k: nat, ip: string)
    requires Run(cfg, ss, es) && k < |es| && !Concerns(ss[k], es[k], ip) && Agreed(cfg, ss[k])
    requires Deleted(ss[k].table, ss[k].full, ip) <==> Lost(ss, es, k, ip)
    ensures Deleted(ss[k + 1].table, ss[k + 1].full, ip) <==> Lost(ss, es, k + 1, ip)
  {
    RunStep(cfg, ss, es, k);
    OtherStep(cfg, ss[k], es[k], ip);
    assert AgreeOn(cfg, ss[k].table, ss[k].full, ip, ss[k].now);
    if Deleted(ss[k + 1].table, ss[k + 1].full, ip) {
      if ip in ss[k].table {
        assert LostSince(ss, es, k, k + 1, ip);
      } else {
        var m :| LostSince(ss, es, m, k, ip);
        assert LostSince(ss, es, m, k + 1, ip);
      }
    }
    if Lost(ss, es, k + 1, ip) {
      var m :| LostSince(ss, es, m, k + 1, ip);
      if m < k {
        assert LostSince(ss, es, m, k, ip);
      }
    }
  }

  /** A failed update at step `k` whose client lost its failures before and was not heard of since. */
  ghost predicate ForgetsAt(ss: seq<State>, es: seq<Event>, k: nat)
    requires |ss| == |es| + 1 && k < |es|
  {
    && es[k].Update? && !es[k].success && es[k].id in ss[k].pending
    && Lost(ss, es, k, ss[k].pending[es[k].id])
  }

  /** The request behind such an update was checked before the entry was deleted. */
  lemma {:induction false} CheckedBefore(cfg: Config, ss: seq<State>, es: seq<Event>, k: nat, id: nat)
      returns (a: nat)
    requires Run(cfg, ss, es) && k <= |es| && id in ss[k].pending
    ensures a < k && es[a].Check? && es[a].id == id && es[a].ip == ss[k].pending[id]
    ensures forall m | LostSince(ss, es, m, k, ss[k].pending[id]) :: a < m
  {
    RunStep(cfg, ss, es, k - 1);
    if es[k - 1].Check? && es[k - 1].id == id {
      a := k - 1;
    } else {
      a := CheckedBefore(cfg, ss, es, k - 1, id);
    }
    assert Concerns(ss[a], es[a], ss[k].pending[id]);
  }

  lemma {:induction false} AgreementChain(cfg: Config, ss: seq<State>, es: seq<Event>, k: nat)
    requires |ss| == |es| + 1 && k <= |es| && Agreed(cfg, ss[0])
    requires forall m | 0 <= m < k && Agreed(cfg, ss[m]) :: Agreed(cfg, ss[m + 1]) <==> !Forgets(ss[m], es[m])
    ensures (forall m | 0 <= m <= k :: Agreed(cfg, ss[m])) <==> forall m | 0 <= m < k :: !Forgets(ss[m], es[m])
  {
    if k > 0 {
      AgreementChain(cfg, ss, es, k - 1);
      assert Agreed(cfg, ss[k - 1]) ==> (Agreed(cfg, ss[k - 1 + 1]) <==> !Forgets(ss[k - 1], es[k - 1]));
    }
  }

  lemma AgreedUnlessForgotten(cfg: Config, ss: seq<State>, es: seq<Event>, k: nat)
    requires Run(cfg, ss, es) && k <= |es|
    ensures (forall m | 0 <= m <= k :: Agreed(cfg, ss[m])) <==> forall m | 0 <= m < k :: !Forgets(ss[m], es[m])
  {
    forall m | 0 <= m < k && Agreed(cfg, ss[m])
      ensures Agreed(cfg, ss[m + 1]) <==> !Forgets(ss[m], es[m])
    {
      RunStep(cfg, ss, es, m);
      StepAgreesIff(cfg, ss[m], es[m]);
    }
    AgreementChain(cfg, ss, es, k);
  }

  lemma ForgetsIff(cfg: Config, ss: seq<State>, es: seq<Event>, k: nat)
    requires Run(cfg, ss, es) && k < |es| && forall m | 0 <= m <= k :: Agreed(cfg, ss[m])
    ensures Forgets(ss[k], es[k]) <==> ForgetsAt(ss, es, k)
  {
    if es[k].Update? {
      RunStep(cfg, ss, es, k);
      DeletedIffLost(cfg, ss, es, k, ss[k].pending[es[k].id]);
    }
  }

  /**
   * The table with the cleanup and the one without say the same throughout a run exactly if no failed update comes
   * after the cleanup of another request has deleted its client's failures.
   */
  lemma {:induction false} TablesAgreeIff(cfg: Config, ss: seq<State>, es: seq<Event>, k: nat)
    requires Run(cfg, ss, es) && k <= |es|
    ensures (forall m | 0 <= m <= k :: Agreed(cfg, ss[m])) <==> forall m | 0 <= m < k :: !ForgetsAt(ss, es, m)
  {
    AgreedUnlessForgotten(cfg, ss, es, k);
    if k > 0 {
      TablesAgreeIff(cfg, ss, es, k - 1);
      AgreedUnlessForgotten(cfg, ss, es, k - 1);
      if forall m | 0 <= m <= k - 1 :: Agreed(cfg, ss[m]) {
        ForgetsIff(cfg, ss, es, k - 1);
      }
    }
  }

  // ----- Whether a client can tell -----

  /** A request that one of the two limiters refuses and the other lets through. */
  ghost predicate DecidedDifferently(s: State, e: Event) {
    e.Check? && Limited(s.table, e.ip, e.now) != Limited(s.full, e.ip, e.now)
  }

  /** Up to the first such update every request is decided as if nothing were ever deleted. */
  lemma DecidedAlikeUnlessForgotten(cfg: Config, ss: seq<State>, es: seq<Event>, k: nat)
    requires Run(cfg, ss, es) && k < |es| && forall m | 0 <= m < k :: !ForgetsAt(ss, es, m)
    ensures !DecidedDifferently(ss[k], es[k])
  {
    TablesAgreeIff(cfg, ss, es, k);
    assert Agreed(cfg, ss[k]);
    RunStep(cfg, ss, es, k);
    if es[k].Check? {
      CheckKeepsAgreement(cfg, ss[k].table, ss[k].full, es[k].ip, es[k].now, ss[k].now);
    }
  }

  /** No block lasts longer than the block duration. */
  ghost predicate BlocksWithin(cfg: Config, table: Table, now: int) {
    forall ip :: Until(table, ip).Some? ==> Until(table, ip).value <= now + cfg.blockDuration
  }

  ghost predicate SameBlock(s: State, ip: string) {
    Until(s.table, ip) == Until(s.full, ip) || (!Limited(s.table, ip, s.now) && !Limited(s.full, ip, s.now))
  }

  lemma StepKeepsWithin(cfg: Config, s: State, e: Event)
    requires Enabled(s, e) && BlocksWithin(cfg, s.table, s.now) && BlocksWithin(cfg, s.full, s.now)
    ensures var n := Next(cfg, s, e); BlocksWithin(cfg, n.table, n.now) && BlocksWithin(cfg, n.full, n.now)
  {
    var n := Next(cfg, s, e);
    forall ip
      ensures Until(n.table, ip).Some? ==> Until(n.table, ip).value <= n.now + cfg.blockDuration
      ensures Until(n.full, ip).Some? ==> Until(n.full, ip).value <= n.now + cfg.blockDuration
    {
      assert Until(s.table, ip).Some? ==> Until(s.table, ip).value <= s.now + cfg.blockDuration;
      assert Until(s.full, ip).Some? ==> Until(s.full, ip).value <= s.now + cfg.blockDuration;
    }
  }

  lemma {:induction false} RunKeepsWithin(cfg: Config, ss: seq<State>, es: seq<Event>, k: nat)
    requires Run(cfg, ss, es) && k <= |es|
    ensures BlocksWithin(cfg, ss[k].table, ss[k].now) && BlocksWithin(cfg, ss[k].full, ss[k].now)
  {
    if k > 0 {
      RunKeepsWithin(cfg, ss, es, k - 1);
      RunStep(cfg, ss, es, k - 1);
      StepKeepsWithin(cfg, ss[k - 1], es[k - 1]);
    }
  }

  /** If the first failure blocks already, deleted failures make no difference to blocks. */
  lemma StepKeepsBlocksSame(cfg: Config, s: State, e: Event, ip: string)
    requires Enabled(s, e) && SameBlock(s, ip) && cfg.maxAttempts <= 1
    ensures SameBlock(Next(cfg, s, e), ip)
  {
  }

  lemma {:induction false} BlocksSame(cfg: Config, ss: seq<State>, es: seq<Event>, k: nat, ip: string)
    requires Run(cfg, ss, es) && k <= |es| && cfg.maxAttempts <= 1
    ensures SameBlock(ss[k], ip)
  {
    if k > 0 {
      BlocksSame(cfg, ss, es, k - 1, ip);
      RunStep(cfg, ss, es, k - 1);
      StepKeepsBlocksSame(cfg, ss[k - 1], es[k - 1], ip);
    }
  }

  lemma NeverToldApart(cfg: Config, ss: seq<State>, es: seq<Event>, k: nat)
    requires Run(cfg, ss, es) && k < |es| && (cfg.maxAttempts <= 1 || cfg.blockDuration == 0)
    ensures !DecidedDifferently(ss[k], es[k])
  {
    if es[k].Check? {
      var s, ip := ss[k], es[k].ip;
      RunStep(cfg, ss, es, k);
      if cfg.maxAttempts <= 1 {
        BlocksSame(cfg, ss, es, k, ip);
      } else {
        RunKeepsWithin(cfg, ss, es, k);
        assert Until(s.table, ip).Some? ==> Until(s.table, ip).value <= s.now;
        assert Until(s.full, ip).Some? ==> Until(s.full, ip).value <= s.now;
      }
    }
  }

  lemma Extended(cfg: Config, ss: seq<State>, es: seq<Event>, e: Event, t: State)
      returns (ss': seq<State>, es': seq<Event>)
    requires Run(cfg, ss, es) && Enabled(ss[|es|], e) && t == Next(cfg, ss[|es|], e)
    ensures Run(cfg, ss', es') && es' == es + [e] && ss'[|es'|] == t && ss'[|es|] == ss[|es|]
  {
    ss', es' := ss + [t], es + [e];
  }

  /** Client "a" after `n` failures, `seen` of them counted by the limiter, the last at `at`. */
  function Counted(cfg: Config, n: nat, at: int): Table {
    map["a" := Info(n, at, if n >= cfg.maxAttempts then Some(at + cfg.blockDuration) else None, n)]
  }

  /** Client "a" fails once and is checked again at the end of the window. */
  lemma FailedOnce(cfg: Config) returns (ss: seq<State>, es: seq<Event>)
    requires cfg.maxAttempts >= 2
    ensures Run(cfg, ss, es) && es == [Check(0, "a", 0), Update(0, false, 0), Check(0, "a", cfg.window)]
    ensures ss[|es|] == State(Counted(cfg, 1, 0), Counted(cfg, 1, 0), map[0 := "a"], cfg.window)
  {
    var one := Counted(cfg, 1, 0);
    ss, es := [State(map[], map[], map[], 0)], [];
    ss, es := Extended(cfg, ss, es, Check(0, "a", 0), State(map[], map[], map[0 := "a"], 0));
    ss, es := Extended(cfg, ss, es, Update(0, false, 0), State(one, one, map[], 0));
    ss, es := Extended(cfg, ss, es, Check(0, "a", cfg.window), State(one, one, map[0 := "a"], cfg.window));
  }

  /** Before that request fails, too, a request of client "b" deletes the first failure. */
  lemma FirstFailureForgotten(cfg: Config) returns (ss: seq<State>, es: seq<Event>)
    requires cfg.maxAttempts >= 2
    ensures var t := cfg.window + 1;
            && Run(cfg, ss, es)
            && es == [Check(0, "a", 0), Update(0, false, 0), Check(0, "a", cfg.window), Check(1, "b", t),
                      Update(0, false, t)]
            && ss[|es|] == State(Counted(cfg, 1, t), Counted(cfg, 2, t), map[1 := "b"], t)
  {
    var t, one := cfg.window + 1, Counted(cfg, 1, 0);
    ss, es := FailedOnce(cfg);
    assert Cleaned(cfg, one, t) == map[];
    ss, es := Extended(cfg, ss, es, Check(1, "b", t), State(map[], one, map[0 := "a", 1 := "b"], t));
    ss, es := Extended(cfg, ss, es, Update(0, false, t),
        State(Counted(cfg, 1, t), Counted(cfg, 2, t), map[1 := "b"], t));
  }

  /** Client "a" goes on failing until the limit is reached without the deletion. */
  lemma {:induction false} LimitReached(cfg: Config, n: nat) returns (ss: seq<State>, es: seq<Event>)
    requires 2 <= n <= cfg.maxAttempts
    ensures var t := cfg.window + 1;
            Run(cfg, ss, es) && ss[|es|] == State(Counted(cfg, n - 1, t), Counted(cfg, n, t), map[1 := "b"], t)
  {
    if n == 2 {
      ss, es := FirstFailureForgotten(cfg);
    } else {
      ss, es := LimitReached(cfg, n - 1);
      var t, s := cfg.window + 1, ss[|es|];
      ss, es := Extended(cfg, ss, es, Check(0, "a", t), s.(pending := map[0 := "a", 1 := "b"]));
      ss, es := Extended(cfg, ss, es, Update(0, false, t),
          State(Counted(cfg, n - 1, t), Counted(cfg, n, t), map[1 := "b"], t));
    }
  }

  /**
   * Some run decides a request differently than without the cleanup exactly if a block takes more than one failure
   * and lasts at all.
   */
  lemma CleanupVisibleIff(cfg: Config)
    ensures (exists ss, es, k: nat :: Run(cfg, ss, es) && k < |es| && DecidedDifferently(ss[k], es[k])) <==>
            cfg.maxAttempts >= 2 && cfg.blockDuration > 0
  {
    if cfg.maxAttempts >= 2 && cfg.blockDuration > 0 {
      var ss, es := LimitReached(cfg, cfg.maxAttempts);
      var s, e := ss[|es|], Check(0, "a", cfg.window + 1);
      ss, es := Extended(cfg, ss, es, e, Next(cfg, s, e));
      assert DecidedDifferently(ss[|es| - 1], es[|es| - 1]);
    } else {
      forall ss, es, k: nat | Run(cfg, ss, es) && k < |es|
        ensures !DecidedDifferently(ss[k], es[k])
      {
        NeverToldApart(cfg, ss, es, k);
      }
    }
  }

  // ----- Blocks and counts -----

  /**
   * From the failure that reaches the limit on, the client is blocked at least until the block ends, whatever is still
   * under way or comes from others, successful answers to the client itself included.
   */
  lemma {:induction false} BlockLasts(cfg: Config, ss: seq<State>, es: seq<Event>, i: nat, k: nat, ip: string,
      until: int)
    requires Run(cfg, ss, es) && i <= k <= |es| && Until(ss[i].table, ip) == Some(until) && ss[k].now < until
    ensures ip in ss[k].table && ss[k].table[ip].blockedUntil.Some? && until <= ss[k].table[ip].blockedUntil.value
    ensures k < |es| && es[k].Check? && es[k].ip == ip && es[k].now < until ==> ss[k + 1].pending == ss[k].pending
    decreases k
  {
    if i < k {
      RunStep(cfg, ss, es, k - 1);
      BlockLasts(cfg, ss, es, i, k - 1, ip, until);
      ClockAdvances(cfg, ss, es, i, k);
      RunKeepsWithin(cfg, ss, es, i);
      assert until <= ss[i].now + cfg.blockDuration;
    }
    if k < |es| {
      RunStep(cfg, ss, es, k);
    }
  }

  /** How many updates of the client lie between the two moments. */
  ghost function UpdatesOf(ss: seq<State>, es: seq<Event>, i: nat, k: nat, ip: string): nat
    requires |ss| == |es| + 1 && i <= k <= |es|
    decreases k
  {
    if i == k then 0 else UpdatesOf(ss, es, i, k - 1, ip) + if Updates(ss[k - 1], es[k - 1], ip) then 1 else 0
  }

  /** The clock reading of the last of them. */
  ghost function LastOf(ss: seq<State>, es: seq<Event>, i: nat, k: nat, ip: string): Option<int>
    requires |ss| == |es| + 1 && i <= k <= |es|
    decreases k
  {
    if i == k then None
    else if Updates(ss[k - 1], es[k - 1], ip) then Some(es[k - 1].now) else LastOf(ss, es, i, k - 1, ip)
  }

  /** All of them are failures, each within the window of the one before. */
  ghost predicate FailsSteadily(cfg: Config, ss: seq<State>, es: seq<Event>, i: nat, k: nat, ip: string)
    requires |ss| == |es| + 1 && i <= k <= |es|
  {
    forall j | i <= j < k && Updates(ss[j], es[j], ip) ::
      !es[j].success && WithinWindow(cfg, LastOf(ss, es, i, j, ip), es[j].now)
  }

  predicate WithinWindow(cfg: Config, last: Option<int>, now: int) {
    last.Some? ==> now - last.value <= cfg.window
  }

  /** What the limiter has on record after `n` failures, the last at `last`. */
  ghost predicate OnRecord(cfg: Config, table: Table, ip: string, n: nat, last: Option<int>) {
    if n == 0 then ip !in table
    else
      && last.Some? && ip in table && table[ip].failures == n && table[ip].lastAttempt == last.value
      && table[ip].blockedUntil == if n >= cfg.maxAttempts then Some(last.value + cfg.blockDuration) else None
  }

  lemma RecordStep(cfg: Config, s: State, e: Event, ip: string, n: nat, last: Option<int>)
    requires Enabled(s, e) && OnRecord(cfg, s.table, ip, n, last) && WithinWindow(cfg, last, Next(cfg, s, e).now)
    requires n == 0 ==> last == None
    ensures !Updates(s, e, ip) ==> OnRecord(cfg, Next(cfg, s, e).table, ip, n, last)
    ensures Updates(s, e, ip) && !e.success ==> OnRecord(cfg, Next(cfg, s, e).table, ip, n + 1, Some(e.now))
  {
  }

  /**
   * Failures of a client that was not on record, each within the window of the one before, are all counted, whatever
   * requests of the client and of others come in between and whatever those delete; the one that reaches the limit,
   * and each after it, blocks the client for the block duration.
   */
  lemma {:induction false} FailuresCountUntilBlocked(cfg: Config, ss: seq<State>, es: seq<Event>, i: nat, k: nat,
      ip: string)
    requires Run(cfg, ss, es) && i <= k <= |es| && ip !in ss[i].table && FailsSteadily(cfg, ss, es, i, k, ip)
    requires WithinWindow(cfg, LastOf(ss, es, i, k, ip), ss[k].now)
    ensures UpdatesOf(ss, es, i, k, ip) == 0 <==> LastOf(ss, es, i, k, ip) == None
    ensures OnRecord(cfg, ss[k].table, ip, UpdatesOf(ss, es, i, k, ip), LastOf(ss, es, i, k, ip))
    decreases k
  {
    if i < k {
      RunStep(cfg, ss, es, k - 1);
      FailuresCountUntilBlocked(cfg, ss, es, i, k - 1, ip);
      RecordStep(cfg, ss[k - 1], es[k - 1], ip, UpdatesOf(ss, es, i, k - 1, ip), LastOf(ss, es, i, k - 1, ip));
    }
  }

  // ----- Who is refused -----

  /** The check of some request forgets the client's failures, by reset or by deletion. */
  ghost predicate Forgives(cfg: Config, s: State, e: Event, ip: string) {
    e.Check? && ip in s.table && s.table[ip].lastAttempt + cfg.window < e.now && !Limited(s.table, ip, e.now)
    && (e.ip == ip || (s.table[ip].blockedUntil.Some? ==> s.table[ip].blockedUntil.value < e.now))
  }

  /** How many updates of the client failed since its last successful one and since its failures were last forgotten. */
  ghost function Streak(cfg: Config, ss: seq<State>, es: seq<Event>, k: nat, ip: string): nat
    requires |ss| == |es| + 1 && k <= |es|
  {
    if k == 0 then 0
    else if Updates(ss[k - 1], es[k - 1], ip) then
      if es[k - 1].success then 0 else Streak(cfg, ss, es, k - 1, ip) + 1
    else if Forgives(cfg, ss[k - 1], es[k - 1], ip) then 0
    else Streak(cfg, ss, es, k - 1, ip)
  }

  lemma StreakStep(cfg: Config, s: State, e: Event, ip: string)
    requires Enabled(s, e)
    ensures FailuresOf(Next(cfg, s, e).table, ip) ==
            if Updates(s, e, ip) then if e.success then 0 else FailuresOf(s.table, ip) + 1
            else if Forgives(cfg, s, e, ip) then 0
            else FailuresOf(s.table, ip)
  {
  }

  /** The failures on record are that streak. */
  lemma {:induction false} FailuresAreTheStreak(cfg: Config, ss: seq<State>, es: seq<Event>, k: nat, ip: string)
    requires Run(cfg, ss, es) && k <= |es|
    ensures FailuresOf(ss[k].table, ip) == Streak(cfg, ss, es, k, ip)
  {
    if k > 0 {
      RunStep(cfg, ss, es, k - 1);
      FailuresAreTheStreak(cfg, ss, es, k - 1, ip);
      StreakStep(cfg, ss[k - 1], es[k - 1], ip);
    }
  }

  /** A failed update that reaches the limit. */
  ghost predicate Blocks(cfg: Config, ss: seq<State>, es: seq<Event>, m: nat, ip: string)
    requires |ss| == |es| + 1 && m < |es|
  {
    Updates(ss[m], es[m], ip) && !es[m].success && Streak(cfg, ss, es, m, ip) + 1 >= cfg.maxAttempts
  }

  lemma BlockStep(cfg: Config, s: State, e: Event, ip: string)
    requires Enabled(s, e) && Until(Next(cfg, s, e).table, ip).Some?
    ensures Until(Next(cfg, s, e).table, ip) == Until(s.table, ip)
            || (Updates(s, e, ip) && !e.success && FailuresOf(s.table, ip) + 1 >= cfg.maxAttempts
                && Until(Next(cfg, s, e).table, ip) == Some(e.now + cfg.blockDuration))
  {
  }

  /** Every block on record was started by such an update. */
  lemma {:induction false} BlockOrigin(cfg: Config, ss: seq<State>, es: seq<Event>, k: nat, ip: string)
      returns (m: nat)
    requires Run(cfg, ss, es) && k <= |es| && Until(ss[k].table, ip).Some?
    ensures m < k && Blocks(cfg, ss, es, m, ip) && Until(ss[k].table, ip) == Some(es[m].now + cfg.blockDuration)
  {
    RunStep(cfg, ss, es, k - 1);
    BlockStep(cfg, ss[k - 1], es[k - 1], ip);
    if Until(ss[k].table, ip) == Until(ss[k - 1].table, ip) {
      m := BlockOrigin(cfg, ss, es, k - 1, ip);
    } else {
      m := k - 1;
      FailuresAreTheStreak(cfg, ss, es, m, ip);
    }
  }

  lemma BlockedFrom(cfg: Config, ss: seq<State>, es: seq<Event>, m: nat, ip: string)
    requires Run(cfg, ss, es) && m < |es| && Blocks(cfg, ss, es, m, ip)
    ensures Until(ss[m + 1].table, ip) == Some(es[m].now + cfg.blockDuration)
  {
    RunStep(cfg, ss, es, m);
    FailuresAreTheStreak(cfg, ss, es, m, ip);
  }

  /**
   * A request is refused exactly if, less than the block duration ago, an update of its client failed that was at
   * least the maxAttempts-th failure since the client's last success and since its failures were last forgotten.
   */
  lemma RefusedIff(cfg: Config, ss: seq<State>, es: seq<Event>, k: nat)
    requires Run(cfg, ss, es) && k < |es| && es[k].Check?
    ensures Limited(ss[k].table, es[k].ip, es[k].now) <==> ss[k + 1].pending == ss[k].pending
    ensures Limited(ss[k].table, es[k].ip, es[k].now) <==>
            exists m :: 0 <= m < k && Blocks(cfg, ss, es, m, es[k].ip) && es[k].now < es[m].now + cfg.blockDuration
  {
    var ip := es[k].ip;
    RunStep(cfg, ss, es, k);
    if Limited(ss[k].table, ip, es[k].now) {
      var m := BlockOrigin(cfg, ss, es, k, ip);
    }
    forall m | 0 <= m < k && Blocks(cfg, ss, es, m, ip) && es[k].now < es[m].now + cfg.blockDuration
      ensures Limited(ss[k].table, ip, es[k].now)
    {
      BlockedFrom(cfg, ss, es, m, ip);
      BlockLasts(cfg, ss, es, m + 1, k, ip, es[m].now + cfg.blockDuration);
    }
  }

  // ----- Without interleaving -----

  /** A check and its update with nothing in between, at one clock reading, are the request that nothing interrupts. */
  lemma UninterruptedRequestIsAtomic(cfg: Config, s: State, id: nat, r: Request)
    requires Enabled(s, Check(id, r.ip, r.now)) && !r.open
    ensures var c := Next(cfg, s, Check(id, r.ip, r.now));
            if Blocked(s.table, r) then c.table == After(cfg, s.table, r, true) && c.pending == s.pending
            else
              var answer := if r.outcome == Forbidden then Leave(id) else Update(id, r.outcome == Succeeded, r.now);
              Enabled(c, answer)
              && Next(cfg, c, answer).table == After(cfg, s.table, r, true)
              && Next(cfg, c, answer).pending == s.pending
  {
  }
}
