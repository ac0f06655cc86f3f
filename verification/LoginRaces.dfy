/**
 * The login lockout when attempts from one address race: the check and the record of an attempt are two
 * calls, so up to `k` attempts can have passed their check and not be decided yet.
 */
module LoginRaces {
  import opened Wrappers
  import opened LoginLimiter

  predicate Within(op: Op, t: int) {
    t <= op.now <= t + 900
  }

  /** Failures recorded for `ip` in the closed interval of one window length that starts at `t`. */
  function FailuresFrom(ops: seq<Op>, ip: Ip, t: int): nat {
    if |ops| == 0 then 0
    else FailuresFrom(ops[..|ops|-1], ip, t)
         + if ops[|ops|-1].Record? && ops[|ops|-1].ip == ip && Within(ops[|ops|-1], t) then 1 else 0
  }

  predicate NoSuccessFrom(ops: seq<Op>, ip: Ip, t: int) {
    forall op | op in ops :: op.Clear? && op.ip == ip ==> !Within(op, t)
  }

  // ---- Attempts in flight ---------------------------------------------------------------------------

  /** From `m` to `n` attempts in flight: a passed check may add one, a decision takes one, others may be given up. */
  predicate Flies(table: Table, op: Op, ip: Ip, m: nat, n: nat) {
    if !About(op, ip) then n <= m
    else if op.Check? then n <= m + if Lockout(table, op.now, ip).Ok? then 1 else 0
    else n < m
  }

  /** `flights` gives how many attempts from `ip` are in flight before each call and at the end: at most `k`. */
  predicate Flown(ops: seq<Op>, flights: seq<nat>, ip: Ip, k: nat) {
    && |flights| == |ops| + 1 && flights[|ops|] <= k
    && if |ops| == 0 then flights[0] == 0
       else
         && Flown(ops[..|ops|-1], flights[..|ops|], ip, k)
         && Flies(After(ops[..|ops|-1]), ops[|ops|-1], ip, flights[|ops|-1], flights[|ops|])
  }

  lemma FlownOn(ops: seq<Op>, flights: seq<nat>, ip: Ip, k: nat, op: Op, n: nat)
    requires Flown(ops, flights, ip, k) && n <= k && Flies(After(ops), op, ip, flights[|ops|], n)
    ensures Flown(ops + [op], flights + [n], ip, k)
  {
    assert (ops + [op])[..|ops|] == ops && (flights + [n])[..|ops| + 1] == flights;
  }

  /** Attempts taken one at a time are never more than one in flight. */
  lemma {:induction false} OneAtATimeIsFlown(ops: seq<Op>, ip: Ip) returns (flights: seq<nat>)
    requires OneAtATime(ops)
    ensures Flown(ops, flights, ip, 1) && flights[|ops|] == if Admitted(ops, ip) then 1 else 0
  {
    if |ops| == 0 {
      flights := [0];
    } else {
      var before, op := ops[..|ops|-1], ops[|ops|-1];
      flights := OneAtATimeIsFlown(before, ip);
      var n := if Admitted(ops, ip) then 1 else 0;
      FlownOn(before, flights, ip, 1, op, n);
      assert before + [op] == ops;
      flights := flights + [n];
    }
  }

  // ---- The bound ------------------------------------------------------------------------------------

  /** As many failures as one window can hold when `k` attempts race. */
  function PerWindow(k: nat): nat {
    LOGIN_MAX_FAILURES - 1 + k
  }

  /** The counter and the attempts that can still add to it. */
  ghost predicate CounterBounded(table: Table, flying: nat, now: int, ip: Ip, k: nat) {
    flying <= k &&
    (ip in table ==>
       && 1 <= table[ip].count <= PerWindow(k) && table[ip].windowStart <= now
       && (!Expired(table[ip], now) ==> table[ip].count + flying <= PerWindow(k)))
  }

  lemma StepBounds(table: Table, op: Op, ip: Ip, m: nat, n: nat, k: nat)
    requires CounterBounded(table, m, op.now, ip, k) && Flies(table, op, ip, m, n) && n <= k
    ensures CounterBounded(Apply(table, op), n, op.now, ip, k)
  {
  }

  /** How many of the interval's failures (`n` of them) the state at time `now` still accounts for. */
  ghost predicate Accounted(table: Table, n: nat, now: int, ip: Ip, t: int, k: nat) {
    && n <= 2 * PerWindow(k) - 1
    && (now < t ==> n == 0)
    && (t <= now <= t + LOGIN_LOCKOUT_WINDOW_SECS ==>
          if ip !in table then n <= PerWindow(k) - 1
          else if table[ip].windowStart < t then n <= table[ip].count - 1
          else n <= PerWindow(k) - 1 + table[ip].count)
  }

  lemma StepAccounts(table: Table, failures: nat, op: Op, ip: Ip, t: int, m: nat, n: nat, k: nat)
    requires Accounted(table, failures, op.now, ip, t, k) && CounterBounded(table, m, op.now, ip, k)
    requires Flies(table, op, ip, m, n) && n <= k
    requires op.Clear? && op.ip == ip ==> !Within(op, t)
    ensures Accounted(Apply(table, op),
                      failures + if op.Record? && op.ip == ip && Within(op, t) then 1 else 0, op.now, ip, t, k)
  {
  }

  /** Letting time pass keeps both. */
  lemma LaterIsFine(table: Table, failures: nat, flying: nat, last: int, now: int, ip: Ip, t: int, k: nat)
    requires last <= now && Accounted(table, failures, last, ip, t, k) && CounterBounded(table, flying, last, ip, k)
    ensures Accounted(table, failures, now, ip, t, k) && CounterBounded(table, flying, now, ip, k)
  {
  }

  lemma {:induction false} RunAccounts(ops: seq<Op>, flights: seq<nat>, now: int, ip: Ip, t: int, k: nat)
    requires Monotone(ops) && Flown(ops, flights, ip, k) && NotBefore(ops, now) && NoSuccessFrom(ops, ip, t)
    ensures CounterBounded(After(ops), flights[|ops|], now, ip, k)
    ensures Accounted(After(ops), FailuresFrom(ops, ip, t), now, ip, t, k)
  {
    if |ops| > 0 {
      var before, op := ops[..|ops|-1], ops[|ops|-1];
      var m, n := flights[|ops|-1], flights[|ops|];
      Prefixes(ops);
      assert op in ops;
      assert NoSuccessFrom(before, ip, t);
      RunAccounts(before, flights[..|ops|], op.now, ip, t, k);
      StepBounds(After(before), op, ip, m, n, k);
      StepAccounts(After(before), FailuresFrom(before, ip, t), op, ip, t, m, n, k);
      LaterIsFine(After(ops), FailuresFrom(ops, ip, t), n, op.now, now, ip, t, k);
    }
  }

  /** With at most `k` attempts in flight, an interval without a success holds at most 2k+17 failures. */
  lemma FailuresAreBounded(ops: seq<Op>, flights: seq<nat>, ip: Ip, t: int, k: nat)
    requires Monotone(ops) && Flown(ops, flights, ip, k) && NoSuccessFrom(ops, ip, t)
    ensures FailuresFrom(ops, ip, t) <= 2 * k + 17
  {
    if |ops| > 0 {
      RunAccounts(ops, flights, ops[|ops|-1].now, ip, t, k);
    }
  }

  // ---- The bound is reached, for every k ----------------------------------------------------------

  /** A run with its attempts in flight. */
  datatype Course = Course(ops: seq<Op>, flights: seq<nat>)

  /** All that has happened by `now` are checks and failures; one at a time if `k` is one. */
  predicate Legal(c: Course, ip: Ip, now: int, k: nat) {
    && Monotone(c.ops) && NotBefore(c.ops, now) && Flown(c.ops, c.flights, ip, k)
    && (forall op | op in c.ops :: !op.Clear?)
    && (k == 1 ==> OneAtATime(c.ops) && (Flying(c) > 0 ==> Admitted(c.ops, ip)))
  }

  function Flying(c: Course): nat
    requires |c.flights| == |c.ops| + 1
  {
    c.flights[|c.ops|]
  }

  function CountAt(table: Table, ip: Ip, now: int): nat {
    if ip in table && !Expired(table[ip], now) then table[ip].count else 0
  }

  function StartAt(table: Table, ip: Ip, now: int): int {
    if ip in table && !Expired(table[ip], now) then table[ip].windowStart else now
  }

  function With(c: Course, op: Op, n: nat): Course {
    Course(c.ops + [op], c.flights + [n])
  }

  lemma Continues(c: Course, ip: Ip, now: int, k: nat, op: Op, n: nat)
    requires Legal(c, ip, now, k) && n <= k && Flies(After(c.ops), op, ip, Flying(c), n)
    requires op == Record(now, ip) || (op == Check(now, ip) && Lockout(After(c.ops), now, ip).Ok?)
    ensures Legal(With(c, op, n), ip, now, k) && Flying(With(c, op, n)) == n
    ensures After(With(c, op, n).ops) == Apply(After(c.ops), op)
  {
    Snoc(c.ops, op);
    FlownOn(c.ops, c.flights, ip, k, op, n);
  }

  lemma CountsOne(ops: seq<Op>, op: Op, ip: Ip, t: int)
    ensures FailuresFrom(ops + [op], ip, t)
            == FailuresFrom(ops, ip, t) + if op.Record? && op.ip == ip && Within(op, t) then 1 else 0
  {
    assert (ops + [op])[..|ops|] == ops;
  }

  /** `j` checks in a row, all of which pass. */
  lemma {:induction false} Checks(c: Course, ip: Ip, now: int, k: nat, j: nat, t: int) returns (d: Course)
    requires Legal(c, ip, now, k) && Flying(c) == 0 && j <= k && CountAt(After(c.ops), ip, now) < LOGIN_MAX_FAILURES
    ensures Legal(d, ip, now, k) && Flying(d) == j && After(d.ops) == After(c.ops)
    ensures FailuresFrom(d.ops, ip, t) == FailuresFrom(c.ops, ip, t)
  {
    if j == 0 {
      d := c;
    } else {
      var e := Checks(c, ip, now, k, j - 1, t);
      Continues(e, ip, now, k, Check(now, ip), j);
      CountsOne(e.ops, Check(now, ip), ip, t);
      d := With(e, Check(now, ip), j);
    }
  }

  /** `j` failures in a row, of attempts in flight. */
  lemma {:induction false} Records(c: Course, ip: Ip, now: int, k: nat, j: nat, t: int) returns (d: Course)
    requires Legal(c, ip, now, k) && Flying(c) >= j
    ensures Legal(d, ip, now, k) && Flying(d) == Flying(c) - j
    ensures CountAt(After(d.ops), ip, now) == CountAt(After(c.ops), ip, now) + j
    ensures StartAt(After(d.ops), ip, now) == StartAt(After(c.ops), ip, now)
    ensures j > 0 ==> ip in After(d.ops) && After(d.ops)[ip].windowStart == StartAt(After(c.ops), ip, now)
    ensures FailuresFrom(d.ops, ip, t)
            == FailuresFrom(c.ops, ip, t) + if t <= now <= t + LOGIN_LOCKOUT_WINDOW_SECS then j else 0
  {
    if j == 0 {
      d := c;
    } else {
      var e := Records(c, ip, now, k, j - 1, t);
      Continues(e, ip, now, k, Record(now, ip), Flying(c) - j);
      CountsOne(e.ops, Record(now, ip), ip, t);
      d := With(e, Record(now, ip), Flying(c) - j);
    }
  }

  /** `j` attempts at one moment, all checked before any is decided. */
  lemma Race(c: Course, ip: Ip, now: int, k: nat, j: nat, t: int) returns (d: Course)
    requires Legal(c, ip, now, k) && Flying(c) == 0 && 0 < j <= k && CountAt(After(c.ops), ip, now) < LOGIN_MAX_FAILURES
    ensures Legal(d, ip, now, k) && Flying(d) == 0
    ensures CountAt(After(d.ops), ip, now) == CountAt(After(c.ops), ip, now) + j
    ensures ip in After(d.ops) && After(d.ops)[ip].windowStart == StartAt(After(c.ops), ip, now)
    ensures StartAt(After(d.ops), ip, now) == StartAt(After(c.ops), ip, now)
    ensures FailuresFrom(d.ops, ip, t)
            == FailuresFrom(c.ops, ip, t) + if t <= now <= t + LOGIN_LOCKOUT_WINDOW_SECS then j else 0
  {
    var e := Checks(c, ip, now, k, j, t);
    d := Records(e, ip, now, k, j, t);
  }

  /** `j` attempts at one moment, one after another. */
  lemma {:induction false} InTurn(c: Course, ip: Ip, now: int, k: nat, j: nat, t: int) returns (d: Course)
    requires Legal(c, ip, now, k) && Flying(c) == 0 && k > 0 && CountAt(After(c.ops), ip, now) + j <= LOGIN_MAX_FAILURES
    ensures Legal(d, ip, now, k) && Flying(d) == 0
    ensures CountAt(After(d.ops), ip, now) == CountAt(After(c.ops), ip, now) + j
    ensures j > 0 ==> ip in After(d.ops) && After(d.ops)[ip].windowStart == StartAt(After(c.ops), ip, now)
    ensures StartAt(After(d.ops), ip, now) == StartAt(After(c.ops), ip, now)
    ensures FailuresFrom(d.ops, ip, t)
            == FailuresFrom(c.ops, ip, t) + if t <= now <= t + LOGIN_LOCKOUT_WINDOW_SECS then j else 0
  {
    if j == 0 {
      d := c;
    } else {
      var e := InTurn(c, ip, now, k, j - 1, t);
      d := Race(e, ip, now, k, 1, t);
    }
  }

  /** One window as full as it gets: nine failures in turn and then `k` at once. */
  lemma FillWindow(c: Course, ip: Ip, now: int, k: nat, t: int) returns (d: Course)
    requires Legal(c, ip, now, k) && Flying(c) == 0 && k > 0 && CountAt(After(c.ops), ip, now) == 0
    ensures Legal(d, ip, now, k) && FailuresFrom(d.ops, ip, t)
            == FailuresFrom(c.ops, ip, t) + if t <= now <= t + LOGIN_LOCKOUT_WINDOW_SECS then PerWindow(k) else 0
  {
    var e := InTurn(c, ip, now, k, LOGIN_MAX_FAILURES - 1, t);
    d := Race(e, ip, now, k, k, t);
  }

  lemma LaterIsLegal(c: Course, ip: Ip, now: int, later: int, k: nat)
    requires Legal(c, ip, now, k) && now <= later
    ensures Legal(c, ip, later, k)
  {
  }

  /** The bound is exact for every `k`: one failure just before the interval, and two full windows that meet in it. */
  lemma TheBoundIsReached(ip: Ip, k: nat) returns (c: Course)
    requires k > 0
    ensures Monotone(c.ops) && Flown(c.ops, c.flights, ip, k) && NoSuccessFrom(c.ops, ip, 1)
    ensures FailuresFrom(c.ops, ip, 1) == 2 * k + 17 && (k == 1 ==> OneAtATime(c.ops))
  {
    c := Course([], [0]);
    c := Race(c, ip, 0, k, 1, 1);
    LaterIsLegal(c, ip, 0, 1, k);
    c := InTurn(c, ip, 1, k, LOGIN_MAX_FAILURES - 2, 1);
    c := Race(c, ip, 1, k, k, 1);
    LaterIsLegal(c, ip, 1, 901, k);
    c := FillWindow(c, ip, 901, k, 1);
  }

  /** Nothing bounds the failures of attempts that race freely: any number of them can be recorded at one moment. */
  lemma RacingIsUnbounded(ip: Ip, n: nat) returns (ops: seq<Op>)
    ensures Monotone(ops) && NoSuccessFrom(ops, ip, 0) && FailuresFrom(ops, ip, 0) == n
  {
    var c := Course([], [0]);
    if n > 0 {
      c := Race(c, ip, 0, n, n, 0);
    }
    ops := c.ops;
  }
}
