/** What the login lockout guarantees over whole runs. */
module LoginBounds {
  import opened Wrappers
  import opened LoginLimiter
  import opened LoginRaces

  // ---- At most 19 failures in any interval of one window length ---------------------------------

  /** Any interval of one window length without a success holds at most 19 failures from one address. */
  lemma AtMostNineteenFailures(ops: seq<Op>, ip: Ip, t: int)
    requires Monotone(ops) && OneAtATime(ops) && NoSuccessFrom(ops, ip, t)
    ensures FailuresFrom(ops, ip, t) <= 19
  {
    var flights := OneAtATimeIsFlown(ops, ip);
    FailuresAreBounded(ops, flights, ip, t, 1);
  }

  /** Nineteen is not too many: one failure just before the interval, nine at its start and ten at its end. */
  lemma NineteenFailuresCanHappen(ip: Ip) returns (ops: seq<Op>)
    ensures Monotone(ops) && OneAtATime(ops) && NoSuccessFrom(ops, ip, 1)
    ensures FailuresFrom(ops, ip, 1) == 19
  {
    var c := TheBoundIsReached(ip, 1);
    ops := c.ops;
  }

  // ---- The counter counts ------------------------------------------------------------------------

  /** Failures recorded for `ip` at `from` or later, since its last success. */
  function FailuresSince(ops: seq<Op>, ip: Ip, from: int): nat {
    if |ops| == 0 then 0
    else if !About(ops[|ops|-1], ip) then FailuresSince(ops[..|ops|-1], ip, from)
    else if ops[|ops|-1].Clear? then 0
    else FailuresSince(ops[..|ops|-1], ip, from) + if ops[|ops|-1].Record? && ops[|ops|-1].now >= from then 1 else 0
  }

  lemma {:induction false} LaterSeesFewer(ops: seq<Op>, ip: Ip, from: int, later: int)
    requires from <= later
    ensures FailuresSince(ops, ip, later) <= FailuresSince(ops, ip, from)
  {
    if |ops| > 0 {
      LaterSeesFewer(ops[..|ops|-1], ip, from, later);
    }
  }

  /** The counter is exact, and what it no longer counts lies before the current moment. */
  ghost predicate CounterExact(ops: seq<Op>, now: int, ip: Ip) {
    if ip in After(ops)
    then var a := After(ops)[ip];
         && a.count == FailuresSince(ops, ip, a.windowStart) && a.windowStart <= now
         && FailuresSince(ops, ip, a.windowStart + LOGIN_LOCKOUT_WINDOW_SECS + 1) == 0
    else FailuresSince(ops, ip, now) == 0
  }

  lemma StepCountsExactly(before: seq<Op>, op: Op, ip: Ip)
    requires CounterExact(before, op.now, ip)
    ensures CounterExact(before + [op], op.now, ip)
  {
    Snoc(before, op);
    if ip in After(before) {
      var a := After(before)[ip];
      if Expired(a, op.now) {
        LaterSeesFewer(before, ip, a.windowStart + LOGIN_LOCKOUT_WINDOW_SECS + 1, op.now);
      }
    }
    LaterSeesFewer(before, ip, op.now, op.now + LOGIN_LOCKOUT_WINDOW_SECS + 1);
  }

  lemma {:induction false} RunCountsExactly(ops: seq<Op>, now: int, ip: Ip)
    requires Monotone(ops) && NotBefore(ops, now)
    ensures CounterExact(ops, now, ip)
  {
    if |ops| > 0 {
      var before, op := ops[..|ops|-1], ops[|ops|-1];
      Prefixes(ops);
      assert op in ops;
      RunCountsExactly(before, op.now, ip);
      StepCountsExactly(before, op, ip);
      assert before + [op] == ops;
      LaterSeesFewer(ops, ip, op.now, now);
    }
  }

  /** The recorded window holds exactly the failures since it opened, and never more than ten. */
  lemma WindowHoldsAtMostTen(ops: seq<Op>, ip: Ip)
    requires Monotone(ops) && OneAtATime(ops) && ip in After(ops)
    ensures After(ops)[ip].count == FailuresSince(ops, ip, After(ops)[ip].windowStart) <= 10
  {
    var now := ops[|ops|-1].now;
    RunCountsExactly(ops, now, ip);
    RunKeepsCounter(ops, now, ip);
  }

  // ---- The sweeper cannot be seen ----------------------------------------------------------------

  function WithoutSweeps(ops: seq<Op>): seq<Op> {
    if |ops| == 0 then []
    else if ops[|ops|-1].Sweep? then WithoutSweeps(ops[..|ops|-1])
    else WithoutSweeps(ops[..|ops|-1]) + [ops[|ops|-1]]
  }

  datatype Outcome = Decision(verdict: Result<(), int>) | Window(attempts: LoginAttempts) | Cleared

  function OutcomeOf(table: Table, op: Op): Outcome
    requires !op.Sweep?
  {
    match op
    case Check(now, ip) => Decision(Lockout(table, now, ip))
    case Record(now, ip) => Window(OneMore(table, now, ip))
    case Clear(_, _) => Cleared
  }

  /** Every lockout decision and every window recorded, in order. */
  function Outcomes(ops: seq<Op>): seq<Outcome> {
    if |ops| == 0 then []
    else if ops[|ops|-1].Sweep? then Outcomes(ops[..|ops|-1])
    else Outcomes(ops[..|ops|-1]) + [OutcomeOf(After(ops[..|ops|-1]), ops[|ops|-1])]
  }

  /** The part of an entry that can still matter at `now`. */
  function Alive(table: Table, ip: Ip, now: int): Option<LoginAttempts> {
    if ip in table && !Expired(table[ip], now) then Some(table[ip]) else None
  }

  lemma StepLeavesTheLiving(swept: Table, table: Table, op: Op, ip: Ip, now: int)
    requires Alive(swept, ip, op.now) == Alive(table, ip, op.now) && op.now <= now
    ensures Alive(Apply(swept, op), ip, now) == Alive(if op.Sweep? then table else Apply(table, op), ip, now)
  {
  }

  lemma {:induction false} SweepsLeaveTheLiving(ops: seq<Op>, ip: Ip, now: int)
    requires Monotone(ops) && NotBefore(ops, now)
    ensures Alive(After(ops), ip, now) == Alive(After(WithoutSweeps(ops)), ip, now)
  {
    if |ops| > 0 {
      var before, op := ops[..|ops|-1], ops[|ops|-1];
      Prefixes(ops);
      assert op in ops;
      SweepsLeaveTheLiving(before, ip, op.now);
      StepLeavesTheLiving(After(before), After(WithoutSweeps(before)), op, ip, now);
      if !op.Sweep? {
        Snoc(WithoutSweeps(before), op);
      }
    }
  }

  lemma SameOutcome(swept: Table, table: Table, op: Op)
    requires !op.Sweep? && Alive(swept, op.ip, op.now) == Alive(table, op.ip, op.now)
    ensures OutcomeOf(swept, op) == OutcomeOf(table, op)
  {
  }

  lemma OneMoreOutcome(ops: seq<Op>, op: Op)
    requires !op.Sweep?
    ensures Outcomes(ops + [op]) == Outcomes(ops) + [OutcomeOf(After(ops), op)]
  {
    assert (ops + [op])[..|ops|] == ops;
  }

  /** Sweeping changes no lockout decision and no recorded window, however often and wherever it runs. */
  lemma {:induction false} SweeperIsInvisible(ops: seq<Op>)
    requires Monotone(ops)
    ensures Outcomes(ops) == Outcomes(WithoutSweeps(ops))
  {
    if |ops| > 0 {
      var before, op := ops[..|ops|-1], ops[|ops|-1];
      Prefixes(ops);
      SweeperIsInvisible(before);
      if !op.Sweep? {
        SweepsLeaveTheLiving(before, op.ip, op.now);
        SameOutcome(After(before), After(WithoutSweeps(before)), op);
        OneMoreOutcome(WithoutSweeps(before), op);
      }
    }
  }

  /** A refused caller that waits as told is let in, whatever other addresses and the sweeper do meanwhile. */
  lemma {:induction false} EntryIsLeftAlone(ops: seq<Op>, more: seq<Op>, ip: Ip)
    requires forall op | op in more :: op.Record? ==> op.ip != ip
    ensures ip in After(ops + more) ==> ip in After(ops) && After(ops + more)[ip] == After(ops)[ip]
  {
    var all := ops + more;
    if |more| == 0 {
      assert all == ops;
    } else {
      assert all[..|all|-1] == ops + more[..|more|-1];
      assert all[|all|-1] in more;
      EntryIsLeftAlone(ops, more[..|more|-1], ip);
    }
  }

  lemma LockoutLifts(ops: seq<Op>, more: seq<Op>, ip: Ip, now: int, later: int)
    requires Monotone(ops) && NotBefore(ops, now) && Lockout(After(ops), now, ip).Err?
    requires later >= now + 60 * Lockout(After(ops), now, ip).error + 1
    requires forall op | op in more :: op.Record? ==> op.ip != ip
    ensures Lockout(After(ops + more), later, ip).Ok?
  {
    RunCountsExactly(ops, now, ip);
    WaitingIsEnough(After(ops), now, ip, later);
    EntryIsLeftAlone(ops, more, ip);
  }
}
