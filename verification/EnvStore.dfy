/** The app table as far as environment variables go: creating and updating apps with encrypted secrets. */
module EnvStore {
  import opened Wrappers
  import opened EnvVars

  type AppId = string

  datatype AppRow = AppRow(name: string, hostId: int, envVars: seq<EnvVar>)

  type Rows = map<AppId, AppRow>

  /** `Elsewhere` is a failure of a step that has nothing to do with variables, such as the database. */
  datatype AppError =
    | InvalidName(name: string)
    | Env(error: EnvError)
    | AppAlreadyExists(name: string)
    | HostNotFound
    | AppNotFound
    | Elsewhere

  /**
   * One call. `hosts` are the hosts that exist and are not revoked at the time; `badSource` and `fails` are
   * whether the source is rejected and whether a later step fails.
   */
  datatype Op =
    | Create(id: AppId, name: string, inputs: seq<EnvVarInput>, hostId: int,
             hosts: set<int>, badSource: bool, fails: bool, nonces: nat -> nat)
    | Update(id: AppId, newName: Option<string>, newInputs: Option<seq<EnvVarInput>>, newHost: Option<int>,
             hosts: set<int>, fails: bool, nonces: nat -> nat)
    | Delete(id: AppId)

  predicate ValidSlug(name: string) {
    && 0 < |name| <= 63 && name[0] != '-' && name[|name|-1] != '-'
    && forall c | c in name :: 'a' <= c <= 'z' || '0' <= c <= '9' || c == '-'
  }

  predicate NameTaken(rows: Rows, name: string) {
    exists id | id in rows :: rows[id].name == name
  }

  function Created(key: SecretsKey, rows: Rows, op: Op): Result<AppRow, AppError>
    requires op.Create?
  {
    if !ValidSlug(op.name) then Err(InvalidName(op.name))
    else if Validate(op.inputs).Err? then Err(Env(Validate(op.inputs).error))
    else match Resolve(key, op.inputs, [], op.nonces)
      case Err(e) => Err(Env(e))
      case Ok(vars) =>
        if op.badSource then Err(Elsewhere)
        else if NameTaken(rows, op.name) then Err(AppAlreadyExists(op.name))
        else if op.hostId !in op.hosts then Err(HostNotFound)
        else if op.fails then Err(Elsewhere)
        else Ok(AppRow(op.name, op.hostId, vars))
  }

  function NewVars(key: SecretsKey, row: AppRow, op: Op): Result<seq<EnvVar>, EnvError>
    requires op.Update?
  {
    if op.newInputs.None? then Ok(row.envVars) else Resolve(key, op.newInputs.value, row.envVars, op.nonces)
  }

  function Updated(key: SecretsKey, rows: Rows, op: Op): Result<AppRow, AppError>
    requires op.Update?
  {
    if op.newInputs.Some? && Validate(op.newInputs.value).Err? then Err(Env(Validate(op.newInputs.value).error))
    else if op.id !in rows then Err(AppNotFound)
    else
      var row := rows[op.id];
      match NewVars(key, row, op)
      case Err(e) => Err(Env(e))
      case Ok(vars) =>
        var name := if op.newName.Some? then op.newName.value else row.name;
        if op.newHost.Some? && op.newHost.value !in op.hosts then Err(HostNotFound)
        else if name != row.name && !ValidSlug(name) then Err(InvalidName(name))
        else if name != row.name && NameTaken(rows, name) then Err(AppAlreadyExists(name))
        else if op.fails then Err(Elsewhere)
        else Ok(AppRow(name, if op.newHost.Some? then op.newHost.value else row.hostId, vars))
  }

  function Answer(key: SecretsKey, rows: Rows, op: Op): Result<AppRow, AppError>
    requires !op.Delete?
  {
    if op.Create? then Created(key, rows, op) else Updated(key, rows, op)
  }

  function Apply(key: SecretsKey, rows: Rows, op: Op): Rows {
    if op.Delete? then rows - {op.id}
    else match Answer(key, rows, op)
      case Err(_) => rows
      case Ok(row) => rows[op.id := row]
  }

  class AppTable {
    var rows: Rows
    const key: SecretsKey

    constructor (key: SecretsKey)
      ensures rows == map[] && this.key == key
    {
      rows, this.key := map[], key;
    }

    method CreateApp(op: Op) returns (r: Result<AppRow, AppError>)
      requires op.Create? && op.id !in rows
      modifies this
      ensures r == Created(key, old(rows), op)
      ensures r.Err? ==> rows == old(rows)
      ensures r.Ok? ==> rows == old(rows)[op.id := r.value]
    {
      if !ValidSlug(op.name) {
        return Err(InvalidName(op.name));
      }
      var valid := ValidateEnvVarInputs(op.inputs);
      if valid.Err? {
        return Err(Env(valid.error));
      }
      var vars := Resolve(key, op.inputs, [], op.nonces);
      if vars.Err? {
        return Err(Env(vars.error));
      }
      if op.badSource {
        return Err(Elsewhere);
      }
      if exists id | id in rows :: rows[id].name == op.name {
        return Err(AppAlreadyExists(op.name));
      }
      if op.hostId !in op.hosts {
        return Err(HostNotFound);
      }
      if op.fails {
        return Err(Elsewhere);
      }
      rows := rows[op.id := AppRow(op.name, op.hostId, vars.value)];
      return Ok(rows[op.id]);
    }

    method UpdateApp(op: Op) returns (r: Result<AppRow, AppError>)
      requires op.Update?
      modifies this
      ensures r == Updated(key, old(rows), op)
      ensures r.Err? ==> rows == old(rows)
      ensures r.Ok? ==> op.id in old(rows) && rows == old(rows)[op.id := r.value]
    {
      if op.newInputs.Some? {
        var valid := ValidateEnvVarInputs(op.newInputs.value);
        if valid.Err? {
          return Err(Env(valid.error));
        }
      }
      if op.id !in rows {
        return Err(AppNotFound);
      }
      var row := rows[op.id];
      var vars := row.envVars;
      if op.newInputs.Some? {
        var resolved := Resolve(key, op.newInputs.value, row.envVars, op.nonces);
        if resolved.Err? {
          return Err(Env(resolved.error));
        }
        vars := resolved.value;
      }
      if op.newHost.Some? && op.newHost.value !in op.hosts {
        return Err(HostNotFound);
      }
      if op.newName.Some? && op.newName.value != row.name {
        if !ValidSlug(op.newName.value) {
          return Err(InvalidName(op.newName.value));
        }
        if exists id | id in rows :: rows[id].name == op.newName.value {
          return Err(AppAlreadyExists(op.newName.value));
        }
      }
      if op.fails {
        return Err(Elsewhere);
      }
      if op.newName.Some? {
        row := row.(name := op.newName.value);
      }
      if op.newHost.Some? {
        row := row.(hostId := op.newHost.value);
      }
      rows := rows[op.id := row.(envVars := vars)];
      return Ok(rows[op.id]);
    }
  }

  // ---- What the answers say -----------------------------------------------------------------------

  /** One to 63 lower-case letters, digits and hyphens, with no hyphen at either end. */
  predicate IsSlug(name: string) {
    && 1 <= |name| <= 63
    && forall j | 0 <= j < |name| ::
         || 'a' <= name[j] <= 'z' || '0' <= name[j] <= '9'
         || (name[j] == '-' && 0 < j < |name| - 1)
  }

  lemma SlugsAreSlugs(name: string)
    ensures ValidSlug(name) <==> IsSlug(name)
  {
    if ValidSlug(name) {
      forall j | 0 <= j < |name|
        ensures 'a' <= name[j] <= 'z' || '0' <= name[j] <= '9' || name[j] == '-'
      {
        assert name[j] in name;
      }
    }
  }

  /** When a creation succeeds, what its row is, and which error says what. */
  lemma CreationAnswers(key: SecretsKey, rows: Rows, op: Op)
    requires op.Create?
    ensures var r, vars := Created(key, rows, op), Resolve(key, op.inputs, [], op.nonces);
            var inputs := IsSlug(op.name) && Validate(op.inputs).Ok? && vars.Ok?;
            var free := forall id | id in rows :: rows[id].name != op.name;
            && (r.Ok? <==> inputs && !op.badSource && free && op.hostId in op.hosts && !op.fails)
            && (r.Ok? ==> r.value.name == op.name && r.value.hostId == op.hostId && r.value.envVars == vars.value)
            && (r == Err(InvalidName(op.name)) <==> !IsSlug(op.name))
            && (r.Err? && r.error.Env? <==> IsSlug(op.name) && (Validate(op.inputs).Err? || vars.Err?))
            && (r == Err(AppAlreadyExists(op.name)) <==> inputs && !op.badSource && !free)
            && (r == Err(HostNotFound) <==> inputs && !op.badSource && free && op.hostId !in op.hosts)
  {
    SlugsAreSlugs(op.name);
  }

  /** The same for an update: what is given is changed, and everything else is kept. */
  lemma UpdateAnswers(key: SecretsKey, rows: Rows, op: Op)
    requires op.Update? && op.id in rows && (op.newInputs.Some? ==> Validate(op.newInputs.value).Ok?)
    requires op.newInputs.Some? ==> Resolve(key, op.newInputs.value, rows[op.id].envVars, op.nonces).Ok?
    ensures var r, row := Updated(key, rows, op), rows[op.id];
            var moves := op.newHost.Some? ==> op.newHost.value in op.hosts;
            var renames := op.newName.Some? && op.newName.value != row.name;
            var free := forall id | id in rows :: Some(rows[id].name) != op.newName;
            && (r.Ok? <==> moves && (renames ==> IsSlug(op.newName.value) && free) && !op.fails)
            && (r == Err(HostNotFound) <==> !moves)
            && (r.Err? && r.error.InvalidName? <==> moves && renames && !IsSlug(op.newName.value))
            && (r.Err? && r.error.AppAlreadyExists? <==> moves && renames && IsSlug(op.newName.value) && !free)
            && (r.Ok? ==>
                  && r.value.name == (if op.newName.Some? then op.newName.value else row.name)
                  && r.value.hostId == (if op.newHost.Some? then op.newHost.value else row.hostId)
                  && (op.newInputs.None? ==> r.value.envVars == row.envVars)
                  && (op.newInputs.Some? ==>
                        Resolve(key, op.newInputs.value, row.envVars, op.nonces) == Ok(r.value.envVars)))
  {
    if op.newName.Some? {
      SlugsAreSlugs(op.newName.value);
    }
  }

  /** An update is refused over its variables exactly if they are invalid or cannot be stored. */
  lemma UpdateRefusals(key: SecretsKey, rows: Rows, op: Op)
    requires op.Update?
    ensures var r := Updated(key, rows, op);
            var invalid := op.newInputs.Some? && Validate(op.newInputs.value).Err?;
            && (r == Err(AppNotFound) <==> !invalid && op.id !in rows)
            && (r.Err? && r.error.Env? <==>
                  invalid || (op.id in rows && op.newInputs.Some?
                              && Resolve(key, op.newInputs.value, rows[op.id].envVars, op.nonces).Err?))
  {
  }

  /** What a call leaves: a deletion takes the one row, and whatever else succeeds writes the one it answers with. */
  lemma OnlyItsOwnRow(key: SecretsKey, rows: Rows, op: Op)
    ensures op.id in Apply(key, rows, op) <==> !op.Delete? && (op.id in rows || Answer(key, rows, op).Ok?)
    ensures !op.Delete? && Answer(key, rows, op).Ok? ==> Apply(key, rows, op)[op.id] == Answer(key, rows, op).value
    ensures !op.Delete? && Answer(key, rows, op).Err? ==> Apply(key, rows, op) == rows
    ensures forall id | id != op.id ::
              (id in Apply(key, rows, op) <==> id in rows) && (id in rows ==> Apply(key, rows, op)[id] == rows[id])
  {
  }

  /** Names are slugs, and no two apps have the same. */
  ghost predicate NamesOk(rows: Rows) {
    && (forall id | id in rows :: IsSlug(rows[id].name))
    && (forall a, b | a in rows && b in rows && rows[a].name == rows[b].name :: a == b)
  }

  lemma StepKeepsNames(key: SecretsKey, rows: Rows, op: Op)
    requires NamesOk(rows) && (op.Create? ==> op.id !in rows)
    ensures NamesOk(Apply(key, rows, op))
  {
    if op.Create? {
      CreationAnswers(key, rows, op);
    } else if op.Update? && Updated(key, rows, op).Ok? {
      UpdateAnswers(key, rows, op);
    }
  }

  /** Ids are fresh when apps are created. */
  predicate FreshIds(key: SecretsKey, ops: seq<Op>) {
    forall n | 0 <= n < |ops| && ops[n].Create? :: ops[n].id !in After(key, ops[..n])
  }

  /** After any sequence of creations, updates and deletions, app names are slugs and unique. */
  lemma {:induction false} NamesStayUnique(key: SecretsKey, ops: seq<Op>)
    requires FreshIds(key, ops)
    ensures NamesOk(After(key, ops))
  {
    if |ops| > 0 {
      var before := ops[..|ops|-1];
      forall n | 0 <= n < |before| && before[n].Create?
        ensures before[n].id !in After(key, before[..n])
      {
        assert before[..n] == ops[..n] && before[n] == ops[n];
      }
      NamesStayUnique(key, before);
      StepKeepsNames(key, After(key, before), ops[|ops|-1]);
    }
  }

  // ---- The plaintext table ------------------------------------------------------------------------

  function After(key: SecretsKey, ops: seq<Op>): Rows {
    if |ops| == 0 then map[] else Apply(key, After(key, ops[..|ops|-1]), ops[|ops|-1])
  }

  /** What each owner thinks is stored: the plaintext lists, changed by accepted calls only. */
  function PlainApply(plain: map<AppId, seq<PlainVar>>, op: Op, accepted: bool): map<AppId, seq<PlainVar>> {
    if op.Delete? then plain - {op.id}
    else if !accepted then plain
    else if op.Create? then
      if Acceptable(op.inputs, []) then plain[op.id := Entries(op.inputs, [])] else plain
    else
      var before := if op.id in plain then plain[op.id] else [];
      if op.newInputs.Some? && Acceptable(op.newInputs.value, before)
      then plain[op.id := Entries(op.newInputs.value, before)]
      else plain
  }

  predicate Accepted(key: SecretsKey, rows: Rows, op: Op) {
    op.Delete? || Answer(key, rows, op).Ok?
  }

  function PlainAfter(key: SecretsKey, ops: seq<Op>): map<AppId, seq<PlainVar>> {
    if |ops| == 0 then map[]
    else
      var before, op := ops[..|ops|-1], ops[|ops|-1];
      PlainApply(PlainAfter(key, before), op, Accepted(key, After(key, before), op))
  }

  function PlainKeys(plain: seq<PlainVar>): (keys: seq<string>)
    ensures |keys| == |plain| && forall i | 0 <= i < |keys| :: keys[i] == plain[i].key
  {
    seq(|plain|, i requires 0 <= i < |plain| => plain[i].key)
  }

  ghost predicate TableRefines(key: SecretsKey, rows: Rows, plain: map<AppId, seq<PlainVar>>) {
    && rows.Keys == plain.Keys
    && forall id | id in rows :: Refines(key, rows[id].envVars, plain[id]) && Distinct(PlainKeys(plain[id]))
  }

  lemma EntriesHaveTheKeys(inputs: seq<EnvVarInput>, before: seq<PlainVar>)
    requires Validate(inputs).Ok? && Acceptable(inputs, before)
    ensures Distinct(PlainKeys(Entries(inputs, before)))
  {
    ValidMeansDistinctIdentifiers(inputs);
    assert PlainKeys(Entries(inputs, before)) == Keys(inputs);
  }

  lemma CreateRefines(key: SecretsKey, rows: Rows, plain: map<AppId, seq<PlainVar>>, op: Op)
    requires Lawful(key) && TableRefines(key, rows, plain) && op.Create? && Created(key, rows, op).Ok?
    ensures Acceptable(op.inputs, [])
    ensures Refines(key, Created(key, rows, op).value.envVars, Entries(op.inputs, []))
    ensures Distinct(PlainKeys(Entries(op.inputs, [])))
  {
    ResolveRefines(key, op.inputs, [], [], op.nonces);
    EntriesHaveTheKeys(op.inputs, []);
  }

  lemma UpdateRefines(key: SecretsKey, rows: Rows, plain: map<AppId, seq<PlainVar>>, op: Op)
    requires Lawful(key) && TableRefines(key, rows, plain) && op.Update? && Updated(key, rows, op).Ok?
    ensures op.id in rows
    ensures op.newInputs.None? ==> Updated(key, rows, op).value.envVars == rows[op.id].envVars
    ensures op.newInputs.Some? ==>
              && Acceptable(op.newInputs.value, plain[op.id])
              && Refines(key, Updated(key, rows, op).value.envVars, Entries(op.newInputs.value, plain[op.id]))
              && Distinct(PlainKeys(Entries(op.newInputs.value, plain[op.id])))
  {
    if op.newInputs.Some? {
      ResolveRefines(key, op.newInputs.value, rows[op.id].envVars, plain[op.id], op.nonces);
      EntriesHaveTheKeys(op.newInputs.value, plain[op.id]);
    }
  }

  lemma StepRefines(key: SecretsKey, rows: Rows, plain: map<AppId, seq<PlainVar>>, op: Op)
    requires Lawful(key) && TableRefines(key, rows, plain)
    ensures TableRefines(key, Apply(key, rows, op), PlainApply(plain, op, Accepted(key, rows, op)))
  {
    if Accepted(key, rows, op) {
      if op.Create? {
        CreateRefines(key, rows, plain, op);
      } else if op.Update? {
        UpdateRefines(key, rows, plain, op);
      }
    }
  }

  lemma {:induction false} RunRefines(key: SecretsKey, ops: seq<Op>)
    requires Lawful(key)
    ensures TableRefines(key, After(key, ops), PlainAfter(key, ops))
  {
    if |ops| > 0 {
      RunRefines(key, ops[..|ops|-1]);
      StepRefines(key, After(key, ops[..|ops|-1]), PlainAfter(key, ops[..|ops|-1]), ops[|ops|-1]);
    }
  }

  /**
   * After any sequence of calls, decrypting an app's row gives back its plaintext list, kept secrets
   * included, and no key occurs twice.
   */
  lemma DecryptGivesThePlaintextList(key: SecretsKey, ops: seq<Op>, id: AppId)
    requires Lawful(key)
    ensures id in After(key, ops) <==> id in PlainAfter(key, ops)
    ensures id in After(key, ops) ==>
              && Decrypt(key, After(key, ops)[id].envVars) == Ok(Revealed(PlainAfter(key, ops)[id]))
              && Distinct(PlainKeys(PlainAfter(key, ops)[id]))
  {
    RunRefines(key, ops);
    if id in After(key, ops) {
      DecryptOfRefined(key, After(key, ops)[id].envVars, PlainAfter(key, ops)[id]);
    }
  }

  /** Unless the cipher fails, an update is turned away over its variables exactly when the plaintext list would be. */
  lemma RefusedIffUnacceptable(key: SecretsKey, ops: seq<Op>, op: Op)
    requires Lawful(key) && op.Update? && op.newInputs.Some? && op.id in After(key, ops)
    requires Updated(key, After(key, ops), op) != Err(Env(CorruptData))
    ensures op.id in PlainAfter(key, ops)
    ensures var r := Updated(key, After(key, ops), op);
            r.Err? && r.error.Env? <==>
            Validate(op.newInputs.value).Err? || !Acceptable(op.newInputs.value, PlainAfter(key, ops)[op.id])
  {
    RunRefines(key, ops);
    ResolveRefines(key, op.newInputs.value, After(key, ops)[op.id].envVars, PlainAfter(key, ops)[op.id], op.nonces);
  }
}
