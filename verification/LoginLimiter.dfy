/** The per-address login lockout: a fixed window of failures, and a sweeper that only saves memory. */
module LoginLimiter {
  import opened Wrappers

  const LOGIN_MAX_FAILURES: nat := 10
  const LOGIN_LOCKOUT_WINDOW_SECS: nat := 15 * 60

  type Ip = string

  datatype LoginAttempts = LoginAttempts(count: nat, windowStart: int)

  type Table = map<Ip, LoginAttempts>

  predicate Expired(attempts: LoginAttempts, now: int) {
    now - attempts.windowStart > LOGIN_LOCKOUT_WINDOW_SECS
  }

  /** `Err` carries the minutes the caller is told to wait. */
  function Lockout(table: Table, now: int, ip: Ip): Result<(), int> {
    if ip !in table || Expired(table[ip], now) || table[ip].count < LOGIN_MAX_FAILURES then Ok(())
    else Err((LOGIN_LOCKOUT_WINDOW_SECS - (now - table[ip].windowStart) + 59) / 60)
  }

  function OneMore(table: Table, now: int, ip: Ip): LoginAttempts {
    if ip !in table || Expired(table[ip], now) then LoginAttempts(1, now)
    else table[ip].(count := table[ip].count + 1)
  }

  /** `Check`, `Record` and `Clear` are the three calls a login makes; `Sweep` is the background task. */
  datatype Op = Check(now: int, ip: Ip) | Record(now: int, ip: Ip) | Clear(now: int, ip: Ip) | Sweep(now: int)

  function Apply(table: Table, op: Op): Table {
    match op
    case Check(_, _) => table
    case Record(now, ip) => table[ip := OneMore(table, now, ip)]
    case Clear(_, ip) => table - {ip}
    case Sweep(now) => map ip | ip in table && !Expired(table[ip], now) :: table[ip]
  }

  function After(ops: seq<Op>): Table {
    if |ops| == 0 then map[] else Apply(After(ops[..|ops|-1]), ops[|ops|-1])
  }

  /** The clock never runs backwards. */
  predicate Monotone(ops: seq<Op>) {
    forall i, j | 0 <= i < j < |ops| :: ops[i].now <= ops[j].now
  }

  predicate NotBefore(ops: seq<Op>, now: int) {
    forall op | op in ops :: op.now <= now
  }

  predicate About(op: Op, ip: Ip) {
    !op.Sweep? && op.ip == ip
  }

  /** An attempt from `ip` has passed its check and has not been decided yet. */
  predicate Admitted(ops: seq<Op>, ip: Ip) {
    |ops| > 0 &&
    if !About(ops[|ops|-1], ip) then Admitted(ops[..|ops|-1], ip)
    else ops[|ops|-1].Check? && Lockout(After(ops[..|ops|-1]), ops[|ops|-1].now, ip).Ok?
  }

  /** Attempts from one address come one at a time: a password is only judged after its own admission. */
  predicate OneAtATime(ops: seq<Op>) {
    |ops| > 0 ==>
      && OneAtATime(ops[..|ops|-1])
      && (ops[|ops|-1].Record? || ops[|ops|-1].Clear? ==> Admitted(ops[..|ops|-1], ops[|ops|-1].ip))
  }

  // ---- The object -------------------------------------------------------------------------------

  datatype Verdict = RightPassword | WrongPassword | DatabaseFails

  datatype LoginError = TooManyLoginAttempts(minutes: int) | InvalidCredentials | Db

  /** What one login request does: its check at `now`, and at `later` whatever its verdict calls for. */
  function LoginOps(table: Table, ip: Ip, now: int, later: int, verdict: Verdict): seq<Op> {
    if Lockout(table, now, ip).Err? || verdict == DatabaseFails then [Check(now, ip)]
    else if verdict == WrongPassword then [Check(now, ip)] + [Record(later, ip)]
    else [Check(now, ip)] + [Clear(later, ip)]
  }

  function ApplyAll(table: Table, ops: seq<Op>): Table {
    if |ops| == 0 then table else Apply(ApplyAll(table, ops[..|ops|-1]), ops[|ops|-1])
  }

  class Limiter {
    var attempts: Table

    constructor ()
      ensures attempts == After([])
    {
      attempts := map[];
    }

    method CheckLoginLockout(ip: Ip, now: int) returns (r: Result<(), int>)
      ensures r == Lockout(attempts, now, ip)
    {
      if ip !in attempts {
        return Ok(());
      }
      var elapsed := now - attempts[ip].windowStart;
      if elapsed > LOGIN_LOCKOUT_WINDOW_SECS || attempts[ip].count < LOGIN_MAX_FAILURES {
        return Ok(());
      }
      var retryAfterSecs := LOGIN_LOCKOUT_WINDOW_SECS - elapsed;
      return Err((retryAfterSecs + 59) / 60);
    }

    method RecordFailedLogin(ip: Ip, now: int)
      modifies this
      ensures attempts == Apply(old(attempts), Record(now, ip))
    {
      if ip in attempts && now - attempts[ip].windowStart <= LOGIN_LOCKOUT_WINDOW_SECS {
        attempts := attempts[ip := LoginAttempts(attempts[ip].count + 1, attempts[ip].windowStart)];
      } else {
        attempts := attempts[ip := LoginAttempts(1, now)];
      }
    }

    method ClearLoginAttempts(ip: Ip, now: int)
      modifies this
      ensures attempts == Apply(old(attempts), Clear(now, ip))
    {
      attempts := attempts - {ip};
    }

    method SweepExpiredLoginAttempts(now: int)
      modifies this
      ensures attempts == Apply(old(attempts), Sweep(now))
      ensures forall ip :: ip in attempts <==>
                           ip in old(attempts) && now - old(attempts)[ip].windowStart <= LOGIN_LOCKOUT_WINDOW_SECS
      ensures forall ip | ip in attempts :: attempts[ip] == old(attempts)[ip]
    {
      attempts :=
        map ip | ip in attempts && now - attempts[ip].windowStart <= LOGIN_LOCKOUT_WINDOW_SECS :: attempts[ip];
    }

    /** The login route, up to the session it opens; `verdict` is what the user table says. */
    method Login(ip: Ip, now: int, later: int, verdict: Verdict) returns (r: Result<(), LoginError>)
      modifies this
      ensures attempts == ApplyAll(old(attempts), LoginOps(old(attempts), ip, now, later, verdict))
      ensures (attempts, r) == Decided(old(attempts), ip, now, later, verdict)
    {
      LoginDecides(attempts, ip, now, later, verdict);
      var admitted := CheckLoginLockout(ip, now);
      if admitted.Err? {
        return Err(TooManyLoginAttempts(admitted.error));
      }
      match verdict {
        case DatabaseFails =>
          return Err(Db);
        case WrongPassword =>
          RecordFailedLogin(ip, later);
          return Err(InvalidCredentials);
        case RightPassword =>
          ClearLoginAttempts(ip, later);
          return Ok(());
      }
    }
  }

  /** What one login request leaves, and its answer. */
  function Decided(table: Table, ip: Ip, now: int, later: int, verdict: Verdict): (Table, Result<(), LoginError>) {
    match Lockout(table, now, ip)
    case Err(minutes) => (table, Err(TooManyLoginAttempts(minutes)))
    case Ok(_) =>
      match verdict
      case RightPassword => (table - {ip}, Ok(()))
      case WrongPassword => (table[ip := OneMore(table, later, ip)], Err(InvalidCredentials))
      case DatabaseFails => (table, Err(Db))
  }

  lemma LoginDecides(table: Table, ip: Ip, now: int, later: int, verdict: Verdict)
    ensures ApplyAll(table, LoginOps(table, ip, now, later, verdict)) == Decided(table, ip, now, later, verdict).0
  {
    TwoOps(table, Check(now, ip), Record(later, ip));
    TwoOps(table, Check(now, ip), Clear(later, ip));
    assert [Check(now, ip)][..0] == [] && ApplyAll(table, []) == table;
  }

  /** Who is let in and who is told what. */
  lemma LoginAnswers(table: Table, ip: Ip, now: int, later: int, verdict: Verdict)
    ensures var (after, r) := Decided(table, ip, now, later, verdict);
            var locked := ip in table && now - table[ip].windowStart <= LOGIN_LOCKOUT_WINDOW_SECS
                          && table[ip].count >= LOGIN_MAX_FAILURES;
            && (r.Ok? <==> !locked && verdict == RightPassword)
            && (r == Err(InvalidCredentials) <==> !locked && verdict == WrongPassword)
            && (r == Err(Db) <==> !locked && verdict == DatabaseFails)
            && (r.Err? && r.error.TooManyLoginAttempts? <==> locked)
            && (r.Ok? ==> ip !in after) && (r == Err(InvalidCredentials) ==> ip in after && after[ip].count > 0)
            && (r.Err? && r != Err(InvalidCredentials) ==> after == table)
            && forall other | other != ip :: (other in after <==> other in table)
                                             && (other in table ==> after[other] == table[other])
  {
  }

  lemma TwoOps(table: Table, op0: Op, op1: Op)
    ensures ApplyAll(table, [op0] + [op1]) == Apply(Apply(table, op0), op1)
  {
    assert ([op0] + [op1])[..1] == [op0];
    assert ApplyAll(table, [op0]) == Apply(ApplyAll(table, []), op0);
  }

  // ---- Runs -------------------------------------------------------------------------------------

  lemma Snoc(ops: seq<Op>, op: Op)
    ensures (ops + [op])[..|ops + [op]|-1] == ops
    ensures After(ops + [op]) == Apply(After(ops), op)
    ensures OneAtATime(ops + [op]) <==> OneAtATime(ops) && (op.Record? || op.Clear? ==> Admitted(ops, op.ip))
    ensures Monotone(ops + [op]) <==> Monotone(ops) && NotBefore(ops, op.now)
  {
    assert (ops + [op])[..|ops + [op]|-1] == ops;
    if Monotone(ops + [op]) {
      assert forall i | 0 <= i < |ops| :: (ops + [op])[i] == ops[i] && (ops + [op])[|ops|] == op;
    }
  }

  lemma CheckAdmits(ops: seq<Op>, ip: Ip, now: int)
    requires OneAtATime(ops)
    ensures OneAtATime(ops + [Check(now, ip)])
    ensures Admitted(ops + [Check(now, ip)], ip) <==> Lockout(After(ops), now, ip).Ok?
  {
    Snoc(ops, Check(now, ip));
  }

  lemma Decides(ops: seq<Op>, ip: Ip, now: int, op: Op)
    requires OneAtATime(ops) && Lockout(After(ops), now, ip).Ok? && !op.Sweep? && op.ip == ip
    ensures OneAtATime(ops + ([Check(now, ip)] + [op]))
  {
    CheckAdmits(ops, ip, now);
    Snoc(ops + [Check(now, ip)], op);
    assert ops + ([Check(now, ip)] + [op]) == ops + [Check(now, ip)] + [op];
  }

  /** A login request keeps to the discipline, so any number of them taken in turn does. */
  lemma LoginKeepsOneAtATime(ops: seq<Op>, ip: Ip, now: int, later: int, verdict: Verdict)
    requires OneAtATime(ops)
    ensures OneAtATime(ops + LoginOps(After(ops), ip, now, later, verdict))
  {
    CheckAdmits(ops, ip, now);
    if Lockout(After(ops), now, ip).Ok? && verdict != DatabaseFails {
      Decides(ops, ip, now, if verdict == WrongPassword then Record(later, ip) else Clear(later, ip));
    }
  }

  lemma Prefixes(ops: seq<Op>)
    requires |ops| > 0 && Monotone(ops)
    ensures Monotone(ops[..|ops|-1]) && NotBefore(ops[..|ops|-1], ops[|ops|-1].now)
  {
  }

  /** A counter is never above the maximum, and an admitted attempt finds room in it or a new window. */
  ghost predicate CounterOk(ops: seq<Op>, now: int, ip: Ip) {
    ip in After(ops) ==>
      var a := After(ops)[ip];
      && 1 <= a.count <= LOGIN_MAX_FAILURES && a.windowStart <= now
      && (Admitted(ops, ip) ==> a.count < LOGIN_MAX_FAILURES || Expired(a, now))
  }

  lemma {:induction false} RunKeepsCounter(ops: seq<Op>, now: int, ip: Ip)
    requires Monotone(ops) && OneAtATime(ops) && NotBefore(ops, now)
    ensures CounterOk(ops, now, ip)
  {
    if |ops| > 0 {
      var before, op := ops[..|ops|-1], ops[|ops|-1];
      Prefixes(ops);
      assert op in ops;
      RunKeepsCounter(before, op.now, ip);
    }
  }

  // ---- Ten wrong passwords lock out ---------------------------------------------------------------

  /** The table after `k` login requests with a wrong password at one moment. */
  function AfterWrong(table: Table, ip: Ip, now: int, k: nat): Table {
    if k == 0 then table else Decided(AfterWrong(table, ip, now, k - 1), ip, now, now, WrongPassword).0
  }

  lemma {:induction false} WrongPasswordsCount(table: Table, ip: Ip, now: int, k: nat)
    requires ip !in table && k <= LOGIN_MAX_FAILURES
    ensures var after := AfterWrong(table, ip, now, k);
            && (if k == 0 then ip !in after else ip in after && after[ip] == LoginAttempts(k, now))
            && forall other | other != ip :: (other in after <==> other in table)
                                             && (other in table ==> after[other] == table[other])
  {
    if k > 0 {
      WrongPasswordsCount(table, ip, now, k - 1);
    }
  }

  /**
   * Nine wrong passwords from an address leave it free to try again; ten lock it out, even with the right
   * password, for a whole window and no longer. Other addresses are not concerned.
   */
  lemma TenWrongPasswordsLockOut(table: Table, ip: Ip, now: int, k: nat, later: int)
    requires ip !in table && k <= 10 && now <= later
    ensures Lockout(AfterWrong(table, ip, now, k), later, ip).Err? <==>
            k == 10 && later - now <= 15 * 60
    ensures forall other | other != ip ::
              Lockout(AfterWrong(table, ip, now, k), later, other) == Lockout(table, later, other)
  {
    WrongPasswordsCount(table, ip, now, k);
  }

  // ---- The lockout is a lockout -----------------------------------------------------------------

  /**
   * Once locked out, nothing from that address gets through until its window rolls over: whatever else
   * happens, sweeps included, the counter stays as it is and every check is refused.
   */
  lemma {:induction false} LockedOutUntilTheWindowRollsOver(ops: seq<Op>, more: seq<Op>, ip: Ip, now: int)
    requires Monotone(ops + more) && OneAtATime(ops + more) && NotBefore(ops + more, now)
    requires ip in After(ops) && After(ops)[ip].count >= LOGIN_MAX_FAILURES && !Expired(After(ops)[ip], now)
    ensures ip in After(ops + more) && After(ops + more)[ip] == After(ops)[ip]
    ensures Lockout(After(ops + more), now, ip).Err? && !Admitted(ops + more, ip)
  {
    var all := ops + more;
    RunKeepsCounter(all, now, ip);
    if |more| == 0 {
      assert all == ops;
    } else {
      var op := all[|all|-1];
      assert all[..|all|-1] == ops + more[..|more|-1];
      assert op in all;
      Prefixes(all);
      assert op.now <= now;
      LockedOutUntilTheWindowRollsOver(ops, more[..|more|-1], ip, op.now);
    }
  }

  /** What a refused caller is told: one second past the stated minutes is always late enough. */
  lemma WaitingIsEnough(table: Table, now: int, ip: Ip, later: int)
    requires Lockout(table, now, ip).Err? && table[ip].windowStart <= now
    requires later >= now + 60 * Lockout(table, now, ip).error + 1
    ensures 0 <= Lockout(table, now, ip).error <= 15 && Lockout(table, later, ip).Ok?
  {
  }

  /** Exactly the stated minutes are enough if and only if the remaining time is not a whole number of minutes. */
  lemma WaitingExactlyIsEnoughIff(table: Table, now: int, ip: Ip)
    requires Lockout(table, now, ip).Err?
    ensures Lockout(table, now + 60 * Lockout(table, now, ip).error, ip).Ok?
            <==> (LOGIN_LOCKOUT_WINDOW_SECS - (now - table[ip].windowStart)) % 60 != 0
  {
  }

  /** Telling a caller to wait `minutes` can be one second short. */
  lemma StatedMinutesCanBeShort(ip: Ip)
    ensures var table: Table := map[ip := LoginAttempts(10, 0)];
            Lockout(table, 0, ip) == Err(15) && Lockout(table, 60 * 15, ip) == Err(0)
  {
  }
}
