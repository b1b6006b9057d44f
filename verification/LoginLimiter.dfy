/** The login limiter of the authentication middleware, per client address. */
module LoginLimiter {
  import opened Text

  /** `blockedUntil` is None while it holds the zero time, which lies before every clock reading. */
  datatype Info = Info(attempts: nat, lastAttempt: int, blockedUntil: Option<int>, failures: nat)

  datatype Config = Config(window: nat, maxAttempts: int, blockDuration: nat)

  type Table = map<string, Info>

  predicate BlockedAt(info: Info, now: int) {
    info.blockedUntil.Some? && now < info.blockedUntil.value
  }

  predicate Quiet(cfg: Config, info: Info, now: int) {
    now - info.lastAttempt > cfg.window
  }

  /** What the cleanup deletes. */
  predicate Stale(cfg: Config, info: Info, now: int) {
    Quiet(cfg, info, now) && (info.blockedUntil.Some? ==> now > info.blockedUntil.value)
  }

  function Cleaned(cfg: Config, table: Table, now: int): Table {
    map ip | ip in table && !Stale(cfg, table[ip], now) :: table[ip]
  }

  function Reset(cfg: Config, table: Table, ip: string, now: int): Table {
    if ip in table && Quiet(cfg, table[ip], now) then table[ip := table[ip].(attempts := 0, failures := 0)] else table
  }

  predicate Limited(table: Table, ip: string, now: int) {
    ip in table && BlockedAt(table[ip], now)
  }

  /** What the check of a client leaves, with or without the cleanup. */
  function Checked(cfg: Config, table: Table, ip: string, now: int, cleanup: bool): Table {
    var cleaned := if cleanup then Cleaned(cfg, table, now) else table;
    if Limited(table, ip, now) then cleaned else Reset(cfg, cleaned, ip, now)
  }

  function Updated(cfg: Config, table: Table, ip: string, success: bool, now: int): Table {
    var info := if ip in table then table[ip] else Info(0, now, None, 0);
    var failures := if success then 0 else info.failures + 1;
    var blocked := if !success && failures >= cfg.maxAttempts then Some(now + cfg.blockDuration) else info.blockedUntil;
    table[ip := Info(info.attempts + 1, now, blocked, failures)]
  }

  /** Until when the client is blocked, None without a block on record. */
  function Until(table: Table, ip: string): Option<int> {
    if ip in table then table[ip].blockedUntil else None
  }

  function FailuresOf(table: Table, ip: string): nat {
    if ip in table then table[ip].failures else 0
  }

  /**
   * What an update does to the client's entry, and nothing to others: a success forgives the failures and leaves a
   * block as it is, a failure counts one more and starts a block if that reaches the limit.
   */
  ghost predicate UpdatedEntry(cfg: Config, before: Table, after: Table, ip: string, success: bool, now: int) {
    && ip in after && after[ip].lastAttempt == now
    && (forall x | x != ip :: (x in after <==> x in before) && (x in before ==> after[x] == before[x]))
    && (success ==> after[ip].failures == 0 && after[ip].blockedUntil == Until(before, ip))
    && (!success ==> after[ip].failures == FailuresOf(before, ip) + 1)
    && (!success && FailuresOf(before, ip) + 1 >= cfg.maxAttempts ==>
          after[ip].blockedUntil == Some(now + cfg.blockDuration))
    && (!success && FailuresOf(before, ip) + 1 < cfg.maxAttempts ==> after[ip].blockedUntil == Until(before, ip))
  }

  class RateLimiter {
    const cfg: Config
    var rateLimits: Table

    constructor (cfg: Config)
      ensures this.cfg == cfg && rateLimits == map[]
    {
      this.cfg := cfg;
      rateLimits := map[];
    }

    method CleanupRateLimits(now: int)
      modifies this
      ensures rateLimits == Cleaned(cfg, old(rateLimits), now)
      ensures forall ip :: ip in rateLimits <==>
                           ip in old(rateLimits) && var info := old(rateLimits)[ip];
                           info.lastAttempt + cfg.window >= now
                           || (info.blockedUntil.Some? && now <= info.blockedUntil.value)
      ensures forall ip | ip in rateLimits :: rateLimits[ip] == old(rateLimits)[ip]
    {
      ghost var before := rateLimits;
      var cutoff := now - cfg.window;
      var todo := rateLimits.Keys;
      while todo != {}
        invariant todo <= before.Keys
        invariant rateLimits == map ip | ip in before && (ip in todo || !Stale(cfg, before[ip], now)) :: before[ip]
        decreases todo
      {
        var ip :| ip in todo;
        todo := todo - {ip};
        var info := rateLimits[ip];
        if info.lastAttempt < cutoff && (info.blockedUntil.None? || now > info.blockedUntil.value) {
          rateLimits := rateLimits - {ip};
        }
      }
    }

    method IsRateLimited(ip: string, now: int) returns (limited: bool)
      modifies this
      ensures limited == Limited(old(rateLimits), ip, now)
      ensures rateLimits == Checked(cfg, old(rateLimits), ip, now, true)
    {
      CleanupRateLimits(now);
      if ip in rateLimits {
        var info := rateLimits[ip];
        if info.blockedUntil.Some? && now < info.blockedUntil.value {
          return true;
        }
        if now - info.lastAttempt > cfg.window {
          rateLimits := rateLimits[ip := info.(attempts := 0, failures := 0)];
        }
      }
      limited := false;
    }

    method UpdateRateLimit(ip: string, success: bool, now: int)
      modifies this
      ensures rateLimits == Updated(cfg, old(rateLimits), ip, success, now)
      ensures UpdatedEntry(cfg, old(rateLimits), rateLimits, ip, success, now)
    {
      var info := if ip in rateLimits then rateLimits[ip] else Info(0, now, None, 0);
      info := info.(attempts := info.attempts + 1, lastAttempt := now);
      if !success {
        info := info.(failures := info.failures + 1);
        if info.failures >= cfg.maxAttempts {
          info := info.(blockedUntil := Some(now + cfg.blockDuration));
        }
      } else {
        info := info.(failures := 0);
      }
      rateLimits := rateLimits[ip := info];
    }

    /**
     * The limiter calls of Authenticate, in its order. `between` is what other requests have made of the table
     * between the check and the update, the table as the check left it if there were none.
     */
    method Authenticate(r: Request, between: Table, updatedAt: int) returns (blocked: bool)
      modifies this
      ensures blocked == Blocked(old(rateLimits), r)
      ensures rateLimits == if r.open then old(rateLimits)
                            else if blocked then Checked(cfg, old(rateLimits), r.ip, r.now, true)
                            else Answered(cfg, between, r, updatedAt)
      ensures between == Checked(cfg, old(rateLimits), r.ip, r.now, true) && updatedAt == r.now ==>
                rateLimits == After(cfg, old(rateLimits), r, true)
    {
      if r.open {
        return false;
      }
      blocked := IsRateLimited(r.ip, r.now);
      if !blocked {
        rateLimits := between;
        match r.outcome
        case Failed => UpdateRateLimit(r.ip, false, updatedAt);
        case Forbidden =>
        case Succeeded => UpdateRateLimit(r.ip, true, updatedAt);
      }
    }
  }

  // ----- Timed sequences of requests -----

  /** What the credential and chassis checks say once the limiter lets the request through. */
  datatype Outcome = Failed | Forbidden | Succeeded

  /** `open`: an unauthenticated GET of the service root, which passes the limiter by. */
  datatype Request = Request(ip: string, now: int, open: bool, outcome: Outcome)

  predicate Blocked(table: Table, r: Request) {
    !r.open && Limited(table, r.ip, r.now)
  }

  /** What the answer to a request that was let through leaves. */
  function Answered(cfg: Config, table: Table, r: Request, now: int): Table {
    match r.outcome
    case Failed => Updated(cfg, table, r.ip, false, now)
    case Forbidden => table
    case Succeeded => Updated(cfg, table, r.ip, true, now)
  }

  /** A request that nothing interrupts, with one clock reading. */
  function After(cfg: Config, table: Table, r: Request, cleanup: bool): Table {
    if r.open then table
    else
      var checked := Checked(cfg, table, r.ip, r.now, cleanup);
      if Blocked(table, r) then checked else Answered(cfg, checked, r, r.now)
  }

  function Decisions(cfg: Config, table: Table, rs: seq<Request>, cleanup: bool): seq<bool>
    decreases |rs|
  {
    if rs == [] then []
    else [Blocked(table, rs[0])] + Decisions(cfg, After(cfg, table, rs[0], cleanup), rs[1..], cleanup)
  }

  ghost predicate InOrder(rs: seq<Request>) {
    forall i, j | 0 <= i < j < |rs| :: rs[i].now <= rs[j].now
  }

  /** Nothing that a decision depends on differs; the number of attempts, which is only logged, may. */
  ghost predicate SameInfo(a: Info, b: Info, now: int) {
    && a.lastAttempt == b.lastAttempt && a.failures == b.failures
    && (a.blockedUntil == b.blockedUntil || (!BlockedAt(a, now) && !BlockedAt(b, now)))
  }

  /**
   * The cleaned table against the one that keeps everything: what is missing is quiet and not blocked, what is left
   * says the same.
   */
  ghost predicate AgreeOn(cfg: Config, cleaned: Table, full: Table, ip: string, now: int) {
    && (ip in cleaned ==> ip in full && SameInfo(cleaned[ip], full[ip], now))
    && (ip in full && ip !in cleaned ==> Quiet(cfg, full[ip], now) && !BlockedAt(full[ip], now))
  }

  ghost predicate Agree(cfg: Config, cleaned: Table, full: Table, now: int) {
    forall ip :: AgreeOn(cfg, cleaned, full, ip, now)
  }

  lemma CheckKeepsAgreementOn(cfg: Config, cleaned: Table, full: Table, ip: string, now: int, x: string, before: int)
    requires AgreeOn(cfg, cleaned, full, ip, before) && AgreeOn(cfg, cleaned, full, x, before) && before <= now
    ensures AgreeOn(cfg, Checked(cfg, cleaned, ip, now, true), Checked(cfg, full, ip, now, false), x, now)
  {
  }

  /** A check decides alike on tables that agree, and leaves tables that agree. */
  lemma CheckKeepsAgreement(cfg: Config, cleaned: Table, full: Table, ip: string, now: int, before: int)
    requires Agree(cfg, cleaned, full, before) && before <= now
    ensures Limited(cleaned, ip, now) == Limited(full, ip, now)
    ensures Agree(cfg, Checked(cfg, cleaned, ip, now, true), Checked(cfg, full, ip, now, false), now)
  {
    assert AgreeOn(cfg, cleaned, full, ip, before);
    forall x {
      CheckKeepsAgreementOn(cfg, cleaned, full, ip, now, x, before);
    }
  }

  /** The client has failures on record that the cleanup has deleted. */
  ghost predicate Deleted(cleaned: Table, full: Table, ip: string) {
    ip !in cleaned && ip in full && full[ip].failures > 0
  }

  /** The client's own check leaves nothing deleted behind: what it does not find it resets. */
  lemma OwnCheckResets(cfg: Config, cleaned: Table, full: Table, ip: string, now: int, before: int)
    requires Agree(cfg, cleaned, full, before) && before <= now && !Limited(cleaned, ip, now)
    ensures !Deleted(Checked(cfg, cleaned, ip, now, true), Checked(cfg, full, ip, now, false), ip)
  {
    assert AgreeOn(cfg, cleaned, full, ip, before);
  }

  /** An update keeps the agreement exactly if it does not count a failure on top of deleted ones. */
  lemma UpdateKeepsAgreementIff(cfg: Config, cleaned: Table, full: Table, ip: string, success: bool, now: int,
      before: int)
    requires Agree(cfg, cleaned, full, before) && before <= now
    ensures Agree(cfg, Updated(cfg, cleaned, ip, success, now), Updated(cfg, full, ip, success, now), now) <==>
            success || !Deleted(cleaned, full, ip)
  {
    var c, f := Updated(cfg, cleaned, ip, success, now), Updated(cfg, full, ip, success, now);
    assert AgreeOn(cfg, cleaned, full, ip, before);
    assert AgreeOn(cfg, c, f, ip, now) <==> success || !Deleted(cleaned, full, ip);
    forall x | x != ip
      ensures AgreeOn(cfg, c, f, x, now)
    {
      assert AgreeOn(cfg, cleaned, full, x, before);
    }
  }

  lemma AgreementKept(cfg: Config, cleaned: Table, full: Table, r: Request, before: int)
    requires Agree(cfg, cleaned, full, before) && before <= r.now
    ensures Blocked(cleaned, r) == Blocked(full, r)
    ensures Agree(cfg, After(cfg, cleaned, r, true), After(cfg, full, r, false), r.now)
  {
    if r.open {
      AgreementLasts(cfg, cleaned, full, before, r.now);
    } else {
      var c, f := Checked(cfg, cleaned, r.ip, r.now, true), Checked(cfg, full, r.ip, r.now, false);
      CheckKeepsAgreement(cfg, cleaned, full, r.ip, r.now, before);
      if !Blocked(cleaned, r) {
        OwnCheckResets(cfg, cleaned, full, r.ip, r.now, before);
        UpdateKeepsAgreementIff(cfg, c, f, r.ip, r.outcome == Succeeded, r.now, r.now);
      }
    }
  }

  lemma AgreementLasts(cfg: Config, cleaned: Table, full: Table, before: int, now: int)
    requires Agree(cfg, cleaned, full, before) && before <= now
    ensures Agree(cfg, cleaned, full, now)
  {
    forall ip
      ensures AgreeOn(cfg, cleaned, full, ip, now)
    {
      assert AgreeOn(cfg, cleaned, full, ip, before);
    }
  }

  lemma {:induction false} AgreeingTablesDecideAlike(cfg: Config, cleaned: Table, full: Table, rs: seq<Request>,
      before: int)
    requires Agree(cfg, cleaned, full, before) && InOrder(rs) && (rs != [] ==> before <= rs[0].now)
    ensures Decisions(cfg, cleaned, rs, true) == Decisions(cfg, full, rs, false)
    decreases |rs|
  {
    if rs != [] {
      AgreementKept(cfg, cleaned, full, rs[0], before);
      assert |rs| > 1 ==> rs[1..][0] == rs[1];
      AgreeingTablesDecideAlike(cfg, After(cfg, cleaned, rs[0], true), After(cfg, full, rs[0], false), rs[1..],
          rs[0].now);
    }
  }

  /**
   * Deleting entries, also those of other clients, changes no decision of any timed sequence of uninterrupted
   * requests.
   */
  lemma CleanupIsInvisible(cfg: Config, table: Table, rs: seq<Request>)
    requires InOrder(rs)
    ensures Decisions(cfg, table, rs, true) == Decisions(cfg, table, rs, false)
  {
    if rs != [] {
      AgreeingTablesDecideAlike(cfg, table, table, rs, rs[0].now);
    }
  }
}
