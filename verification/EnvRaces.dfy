/**
 * Updates of one app that race: `update_app` reads its row, and writes it later, without a lock. Only the
 * columns it was given are written, and of these the list of variables may hold secrets taken over from the
 * row that was read.
 */
module EnvRaces {
  import opened Wrappers
  import opened EnvVars
  import opened EnvStore

  type Change = op: Op | op.Update? witness Update("", None, None, None, {}, false, i => i)

  /** An update between its read and its write: the list it will write, and the plaintext list it has read. */
  datatype Flight = Flight(op: Change, vars: seq<EnvVar>, before: seq<PlainVar>)

  /** The rows, what each owner thinks is stored, and the updates in flight. */
  datatype Race = Race(rows: Rows, plain: map<AppId, seq<PlainVar>>, flights: map<nat, Flight>)

  /** `Whole` is a creation or a deletion, whose row comes or goes at one moment. */
  datatype Label = Whole(op: Op) | Read(t: nat, change: Change) | Write(t: nat) | GiveUp(t: nat)

  function Init(): Race {
    Race(map[], map[], map[])
  }

  predicate Enabled(s: Race, l: Label) {
    match l
    case Whole(op) => !op.Update?
    case Read(t, op) => t !in s.flights
    case Write(t) => t in s.flights
    case GiveUp(t) => t in s.flights
  }

  /** The list an update is about to write, unless its variables are turned away or there is no row. */
  function Prepared(key: SecretsKey, rows: Rows, op: Change): Option<seq<EnvVar>> {
    if op.id !in rows || (op.newInputs.Some? && Validate(op.newInputs.value).Err?) then None
    else if NewVars(key, rows[op.id], op).Err? then None
    else Some(NewVars(key, rows[op.id], op).value)
  }

  /** The columns given are written into the row as it is now; a row that has gone stays gone. */
  function Written(rows: Rows, op: Change, vars: seq<EnvVar>): Rows {
    if op.id !in rows then rows
    else
      var row := rows[op.id];
      rows[op.id := AppRow(
        if op.newName.Some? then op.newName.value else row.name,
        if op.newHost.Some? then op.newHost.value else row.hostId,
        if op.newInputs.Some? then vars else row.envVars)]
  }

  function PlainWritten(plain: map<AppId, seq<PlainVar>>, op: Change, before: seq<PlainVar>): map<AppId, seq<PlainVar>>
  {
    if op.id in plain && op.newInputs.Some? && Acceptable(op.newInputs.value, before)
    then plain[op.id := Entries(op.newInputs.value, before)]
    else plain
  }

  function Step(key: SecretsKey, s: Race, l: Label): Race
    requires Enabled(s, l)
  {
    match l
    case Whole(op) =>
      s.(rows := Apply(key, s.rows, op), plain := PlainApply(s.plain, op, Accepted(key, s.rows, op)))
    case Read(t, op) =>
      var vars := Prepared(key, s.rows, op);
      if vars.None? || op.id !in s.plain then s
      else s.(flights := s.flights[t := Flight(op, vars.value, s.plain[op.id])])
    case Write(t) =>
      var f := s.flights[t];
      Race(Written(s.rows, f.op, f.vars), PlainWritten(s.plain, f.op, f.before), s.flights - {t})
    case GiveUp(t) => s.(flights := s.flights - {t})
  }

  function Run(key: SecretsKey, ls: seq<Label>): Option<Race> {
    if |ls| == 0 then Some(Init()) else
    match Run(key, ls[..|ls|-1])
    case None => None
    case Some(s) => if Enabled(s, ls[|ls|-1]) then Some(Step(key, s, ls[|ls|-1])) else None
  }

  /** What an update in flight will write holds the plaintext list its own read calls for. */
  ghost predicate FlightOk(key: SecretsKey, f: Flight) {
    f.op.newInputs.Some? ==>
      && Acceptable(f.op.newInputs.value, f.before)
      && Refines(key, f.vars, Entries(f.op.newInputs.value, f.before))
      && Distinct(PlainKeys(Entries(f.op.newInputs.value, f.before)))
  }

  ghost predicate RaceOk(key: SecretsKey, s: Race) {
    TableRefines(key, s.rows, s.plain) && forall t | t in s.flights :: FlightOk(key, s.flights[t])
  }

  lemma ReadPrepares(key: SecretsKey, s: Race, op: Change)
    requires Lawful(key) && TableRefines(key, s.rows, s.plain) && Prepared(key, s.rows, op).Some?
    ensures op.id in s.plain && FlightOk(key, Flight(op, Prepared(key, s.rows, op).value, s.plain[op.id]))
  {
    if op.newInputs.Some? {
      ResolveRefines(key, op.newInputs.value, s.rows[op.id].envVars, s.plain[op.id], op.nonces);
      EntriesHaveTheKeys(op.newInputs.value, s.plain[op.id]);
    }
  }

  lemma StepKeepsRace(key: SecretsKey, s: Race, l: Label)
    requires Lawful(key) && RaceOk(key, s) && Enabled(s, l)
    ensures RaceOk(key, Step(key, s, l))
  {
    match l
    case Whole(op) => StepRefines(key, s.rows, s.plain, op);
    case Read(t, op) =>
      if Prepared(key, s.rows, op).Some? {
        ReadPrepares(key, s, op);
      }
    case Write(t) => assert FlightOk(key, s.flights[t]);
    case GiveUp(t) =>
  }

  lemma {:induction false} RunKeepsRace(key: SecretsKey, ls: seq<Label>)
    requires Lawful(key) && Run(key, ls).Some?
    ensures RaceOk(key, Run(key, ls).value)
  {
    if |ls| > 0 {
      RunKeepsRace(key, ls[..|ls|-1]);
      StepKeepsRace(key, Run(key, ls[..|ls|-1]).value, ls[|ls|-1]);
    }
  }

  /**
   * However updates race, decrypting a row gives back a plaintext list whose keys are unique: that of the
   * last update to write it, its kept secrets being those of the moment it read.
   */
  lemma RacingRowsDecrypt(key: SecretsKey, ls: seq<Label>, id: AppId)
    requires Lawful(key) && Run(key, ls).Some?
    ensures var s := Run(key, ls).value;
            && (id in s.rows <==> id in s.plain)
            && (id in s.rows ==>
                  && Decrypt(key, s.rows[id].envVars) == Ok(Revealed(s.plain[id]))
                  && Distinct(PlainKeys(s.plain[id])))
  {
    RunKeepsRace(key, ls);
    var s := Run(key, ls).value;
    if id in s.rows {
      DecryptOfRefined(key, s.rows[id].envVars, s.plain[id]);
    }
  }

  /** An update in flight can always give up, and then it has changed nothing. */
  lemma GivingUpChangesNothing(key: SecretsKey, s: Race, t: nat)
    requires t in s.flights
    ensures Enabled(s, GiveUp(t)) && Step(key, s, GiveUp(t)) == s.(flights := s.flights - {t})
  {
  }

  /** An update whose write follows its read at once is the update that knows of no others. */
  lemma UndisturbedIsUpdate(key: SecretsKey, s: Race, t: nat, op: Change)
    requires Lawful(key) && RaceOk(key, s) && t !in s.flights && Updated(key, s.rows, op).Ok?
    ensures var read := Step(key, s, Read(t, op));
            && Enabled(read, Write(t))
            && Step(key, read, Write(t)).rows == Apply(key, s.rows, op)
            && Step(key, read, Write(t)).plain == PlainApply(s.plain, op, true)
  {
    ReadPrepares(key, s, op);
  }

  /** Every secret the inputs keep is the same in both lists. */
  predicate KeptAgree(inputs: seq<EnvVarInput>, now: seq<PlainVar>, before: seq<PlainVar>) {
    forall i | 0 <= i < |inputs| && inputs[i].value.KeepSecret? ::
      OldSecret(now, inputs[i].key) == OldSecret(before, inputs[i].key)
  }

  lemma EntriesAgreeIff(inputs: seq<EnvVarInput>, now: seq<PlainVar>, before: seq<PlainVar>)
    requires Acceptable(inputs, before)
    ensures Acceptable(inputs, now) && Entries(inputs, now) == Entries(inputs, before) <==>
            KeptAgree(inputs, now, before)
  {
    if KeptAgree(inputs, now, before) {
      assert forall i | 0 <= i < |inputs| :: Entry(inputs[i], now) == Entry(inputs[i], before);
    } else {
      var i :| 0 <= i < |inputs| && inputs[i].value.KeepSecret?
               && OldSecret(now, inputs[i].key) != OldSecret(before, inputs[i].key);
      assert Entry(inputs[i], before).Some?;
      assert Entry(inputs[i], now) != Entry(inputs[i], before);
    }
  }

  /**
   * An update stores the list that one made at the moment of its write would store, if and only if no secret
   * it keeps was replaced or removed since its read.
   */
  lemma WriteIsCurrentIff(key: SecretsKey, s: Race, t: nat)
    requires RaceOk(key, s) && t in s.flights && s.flights[t].op.newInputs.Some? && s.flights[t].op.id in s.plain
    ensures var f, id := s.flights[t], s.flights[t].op.id;
            && id in Step(key, s, Write(t)).plain
            && (Acceptable(f.op.newInputs.value, s.plain[id])
                && Step(key, s, Write(t)).plain[id] == Entries(f.op.newInputs.value, s.plain[id])
                <==> KeptAgree(f.op.newInputs.value, s.plain[id], f.before))
  {
    var f := s.flights[t];
    assert FlightOk(key, f);
    EntriesAgreeIff(f.op.newInputs.value, s.plain[f.op.id], f.before);
  }

  // ---- A secret comes back -----------------------------------------------------------------------

  const SAME: nat -> nat := i => i

  function Inputs(value: EnvVarInputValue): seq<EnvVarInput> {
    [EnvVarInput("TOKEN", value)]
  }

  function Creating(id: AppId, text: string): Op {
    Create(id, "a", Inputs(NewSecret(text)), 0, {0}, false, false, SAME)
  }

  function Changing(id: AppId, value: EnvVarInputValue): Change {
    Update(id, None, Some(Inputs(value)), None, {}, false, SAME)
  }

  function Stored(key: SecretsKey, text: string): seq<EnvVar>
    requires key.encrypt(0, text).Some?
  {
    [EnvVar("TOKEN", Secret(key.encrypt(0, text).value))]
  }

  lemma OneInput(key: SecretsKey, value: EnvVarInputValue, existing: seq<EnvVar>)
    ensures Validate(Inputs(value)).Ok?
    ensures var r := ResolveValue(key, EnvVarInput("TOKEN", value), existing, 0);
            Resolve(key, Inputs(value), existing, SAME)
            == if r.Ok? then Ok([EnvVar("TOKEN", r.value)]) else Err(r.error)
  {
    ValidMeansDistinctIdentifiers(Inputs(value));
    var inputs := Inputs(value);
    assert inputs[..0] == [] && Resolve(key, [], existing, SAME) == Ok([]);
    var r := ResolveValue(key, inputs[0], existing, 0);
    if r.Ok? {
      assert [] + [EnvVar("TOKEN", r.value)] == [EnvVar("TOKEN", r.value)];
    }
  }

  /** Storing a new secret, and keeping the one that is stored. */
  lemma Resolves(key: SecretsKey, text: string, existing: seq<EnvVar>)
    requires text != "" && key.encrypt(0, text).Some?
    ensures Validate(Inputs(NewSecret(text))).Ok? && Validate(Inputs(KeepSecret)).Ok?
    ensures Resolve(key, Inputs(NewSecret(text)), existing, SAME) == Ok(Stored(key, text))
    ensures Resolve(key, Inputs(KeepSecret), Stored(key, text), SAME) == Ok(Stored(key, text))
  {
    OneInput(key, NewSecret(text), existing);
    OneInput(key, KeepSecret, Stored(key, text));
  }

  lemma Decrypts(key: SecretsKey, text: string)
    requires Lawful(key) && key.encrypt(0, text).Some?
    ensures Decrypt(key, Stored(key, text)) == Ok([EnvVar("TOKEN", Plain(text))])
  {
    assert Stored(key, text)[..0] == [] && Decrypt(key, []) == Ok([]);
    assert [] + [EnvVar("TOKEN", Plain(text))] == [EnvVar("TOKEN", Plain(text))];
  }

  lemma AfterOneMore(key: SecretsKey, ops: seq<Op>, op: Op)
    ensures After(key, ops + [op]) == Apply(key, After(key, ops), op)
  {
    assert (ops + [op])[..|ops|] == ops;
  }

  /** An app with one secret, as it is stored. */
  function Rowed(id: AppId, vars: seq<EnvVar>): Rows {
    map[id := AppRow("a", 0, vars)]
  }

  lemma CreatesOne(key: SecretsKey, id: AppId, text: string)
    requires text != "" && key.encrypt(0, text).Some?
    ensures Apply(key, map[], Creating(id, text)) == Rowed(id, Stored(key, text))
    ensures Accepted(key, map[], Creating(id, text)) && Acceptable(Inputs(NewSecret(text)), [])
  {
    Resolves(key, text, []);
  }

  lemma ChangesOne(key: SecretsKey, id: AppId, first: string, text: string)
    requires first != "" && text != "" && key.encrypt(0, first).Some? && key.encrypt(0, text).Some?
    ensures Apply(key, Rowed(id, Stored(key, first)), Changing(id, NewSecret(text))) == Rowed(id, Stored(key, text))
    ensures Apply(key, Rowed(id, Stored(key, first)), Changing(id, KeepSecret)) == Rowed(id, Stored(key, first))
    ensures Prepared(key, Rowed(id, Stored(key, first)), Changing(id, NewSecret(text))) == Some(Stored(key, text))
    ensures Prepared(key, Rowed(id, Stored(key, first)), Changing(id, KeepSecret)) == Some(Stored(key, first))
  {
    Resolves(key, text, Stored(key, first));
    Resolves(key, first, Stored(key, first));
  }

  /** One after the other, in either order, the two updates leave the new secret. */
  lemma EitherOrderReplaces(key: SecretsKey, id: AppId, first: string, text: string)
    requires first != "" && text != "" && key.encrypt(0, first).Some? && key.encrypt(0, text).Some?
    ensures var keep, replace := Changing(id, KeepSecret), Changing(id, NewSecret(text));
            && After(key, [Creating(id, first)] + [keep] + [replace]) == Rowed(id, Stored(key, text))
            && After(key, [Creating(id, first)] + [replace] + [keep]) == Rowed(id, Stored(key, text))
  {
    var keep, replace := Changing(id, KeepSecret), Changing(id, NewSecret(text));
    CreatesOne(key, id, first);
    ChangesOne(key, id, first, text);
    ChangesOne(key, id, text, text);
    AfterOneMore(key, [], Creating(id, first));
    assert [] + [Creating(id, first)] == [Creating(id, first)];
    AfterOneMore(key, [Creating(id, first)], keep);
    AfterOneMore(key, [Creating(id, first)] + [keep], replace);
    AfterOneMore(key, [Creating(id, first)], replace);
    AfterOneMore(key, [Creating(id, first)] + [replace], keep);
  }

  lemma Extend(key: SecretsKey, ls: seq<Label>, s: Race, l: Label) returns (more: seq<Label>, t: Race)
    requires Run(key, ls) == Some(s) && Enabled(s, l)
    ensures more == ls + [l] && t == Step(key, s, l) && Run(key, more) == Some(t)
  {
    more, t := ls + [l], Step(key, s, l);
    assert more[..|ls|] == ls;
  }

  /** The app is created, and both updates have read its row. */
  lemma BothHaveRead(key: SecretsKey, id: AppId, first: string, text: string) returns (ls: seq<Label>, s: Race)
    requires first != "" && text != "" && key.encrypt(0, first).Some? && key.encrypt(0, text).Some?
    ensures Run(key, ls) == Some(s) && s.rows == Rowed(id, Stored(key, first))
    ensures var keep, replace := Changing(id, KeepSecret), Changing(id, NewSecret(text));
            ls == [Whole(Creating(id, first)), Read(1, keep), Read(2, replace)]
    ensures 1 in s.flights && s.flights[1].op == Changing(id, KeepSecret) && s.flights[1].vars == Stored(key, first)
    ensures 2 in s.flights && s.flights[2].op == Changing(id, NewSecret(text)) && s.flights[2].vars == Stored(key, text)
  {
    CreatesOne(key, id, first);
    ChangesOne(key, id, first, text);
    ls, s := Extend(key, [], Init(), Whole(Creating(id, first)));
    assert s.rows == Rowed(id, Stored(key, first)) && id in s.plain;
    ls, s := Extend(key, ls, s, Read(1, Changing(id, KeepSecret)));
    ls, s := Extend(key, ls, s, Read(2, Changing(id, NewSecret(text))));
  }

  lemma TheFirstWritesLast(key: SecretsKey, id: AppId, first: string, text: string) returns (ls: seq<Label>)
    requires first != "" && text != "" && key.encrypt(0, first).Some? && key.encrypt(0, text).Some?
    ensures Run(key, ls).Some? && Run(key, ls).value.rows == Rowed(id, Stored(key, first))
    ensures var keep, replace := Changing(id, KeepSecret), Changing(id, NewSecret(text));
            ls == [Whole(Creating(id, first)), Read(1, keep), Read(2, replace), Write(2), Write(1)]
  {
    var s;
    ls, s := BothHaveRead(key, id, first, text);
    ls, s := Extend(key, ls, s, Write(2));
    assert s.rows == Rowed(id, Stored(key, text));
    ls, s := Extend(key, ls, s, Write(1));
  }

  /**
   * One update keeps a secret, another replaces it. If the first reads before the second writes and writes
   * after it, the old secret is back - which neither order of the two would give.
   */
  lemma ReplacedSecretComesBack(key: SecretsKey, id: AppId, first: string, text: string) returns (ls: seq<Label>)
    requires Lawful(key) && first != "" && text != "" && first != text
    requires key.encrypt(0, first).Some? && key.encrypt(0, text).Some?
    ensures Run(key, ls).Some? && Run(key, ls).value.rows == Rowed(id, Stored(key, first))
    ensures Decrypt(key, Stored(key, first)) != Decrypt(key, Stored(key, text))
    ensures var keep, replace := Changing(id, KeepSecret), Changing(id, NewSecret(text));
            && ls == [Whole(Creating(id, first)), Read(1, keep), Read(2, replace), Write(2), Write(1)]
            && After(key, [Creating(id, first)] + [keep] + [replace]) == Rowed(id, Stored(key, text))
            && After(key, [Creating(id, first)] + [replace] + [keep]) == Rowed(id, Stored(key, text))
  {
    Decrypts(key, first);
    Decrypts(key, text);
    EitherOrderReplaces(key, id, first, text);
    ls := TheFirstWritesLast(key, id, first, text);
  }
}
