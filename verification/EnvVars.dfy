/** Environment variables on their way into and out of an app's row: validation, encryption, decryption. */
module EnvVars {
  import opened Wrappers

  datatype EnvVarValue = Plain(value: string) | Secret(ciphertext: string)

  datatype EnvVar = EnvVar(key: string, value: EnvVarValue)

  /** `KeepSecret` is the wire's secret without a value. */
  datatype EnvVarInputValue = PlainInput(value: string) | NewSecret(value: string) | KeepSecret

  datatype EnvVarInput = EnvVarInput(key: string, value: EnvVarInputValue)

  datatype EnvError = InvalidEnvVar(key: string) | CorruptData

  /** The cipher, with the nonce it draws as an argument. Both directions can fail. */
  datatype SecretsKey = SecretsKey(encrypt: (nat, string) -> Option<string>, decrypt: string -> Option<string>)

  /** All that is asked of the cipher: what it encrypts, it decrypts. */
  ghost predicate Lawful(key: SecretsKey) {
    forall nonce: nat, text: string ::
      key.encrypt(nonce, text).Some? ==> key.decrypt(key.encrypt(nonce, text).value) == Some(text)
  }

  // ---- Validation -------------------------------------------------------------------------------

  predicate IsLetter(c: char) {
    'a' <= c <= 'z' || 'A' <= c <= 'Z' || c == '_'
  }

  predicate ValidKey(key: string) {
    && |key| > 0 && IsLetter(key[0])
    && forall c | c in key :: IsLetter(c) || '0' <= c <= '9'
  }

  /** The input at `i` is not an identifier, or repeats an earlier key. */
  predicate BadAt(inputs: seq<EnvVarInput>, i: nat)
    requires i < |inputs|
  {
    !ValidKey(inputs[i].key) || exists j | 0 <= j < i :: inputs[j].key == inputs[i].key
  }

  predicate Distinct(keys: seq<string>) {
    forall i, j | 0 <= i < j < |keys| :: keys[i] != keys[j]
  }

  function Keys(inputs: seq<EnvVarInput>): (keys: seq<string>)
    ensures |keys| == |inputs| && forall i | 0 <= i < |keys| :: keys[i] == inputs[i].key
  {
    seq(|inputs|, i requires 0 <= i < |inputs| => inputs[i].key)
  }

  function FirstBad(inputs: seq<EnvVarInput>): (i: nat)
    ensures i <= |inputs| && (i < |inputs| ==> BadAt(inputs, i)) && forall j | 0 <= j < i :: !BadAt(inputs, j)
  {
    if |inputs| == 0 then 0
    else
      var i := FirstBad(inputs[..|inputs|-1]);
      assert forall j | 0 <= j < |inputs| - 1 :: BadAt(inputs, j) == BadAt(inputs[..|inputs|-1], j);
      if i < |inputs| - 1 then i
      else if BadAt(inputs, |inputs| - 1) then |inputs| - 1
      else |inputs|
  }

  function Validate(inputs: seq<EnvVarInput>): Result<(), EnvError> {
    if FirstBad(inputs) == |inputs| then Ok(()) else Err(InvalidEnvVar(inputs[FirstBad(inputs)].key))
  }

  method ValidateEnvVarInputs(inputs: seq<EnvVarInput>) returns (r: Result<(), EnvError>)
    ensures r == Validate(inputs)
  {
    var seen: set<string> := {};
    for i := 0 to |inputs|
      invariant seen == set j | 0 <= j < i :: inputs[j].key
      invariant forall j | 0 <= j < i :: !BadAt(inputs, j)
    {
      var key := inputs[i].key;
      if !ValidKey(key) || key in seen {
        assert BadAt(inputs, i);
        assert FirstBad(inputs) == i;
        return Err(InvalidEnvVar(key));
      }
      seen := seen + {key};
    }
    return Ok(());
  }

  lemma BadIsLocal(inputs: seq<EnvVarInput>, n: nat, j: nat)
    requires j < n <= |inputs|
    ensures BadAt(inputs[..n], j) == BadAt(inputs, j)
  {
    assert forall i | 0 <= i <= j :: inputs[..n][i] == inputs[i];
  }

  lemma FirstBadIs(inputs: seq<EnvVarInput>, n: nat)
    requires n <= |inputs| && (n < |inputs| ==> BadAt(inputs, n)) && forall j | 0 <= j < n :: !BadAt(inputs, j)
    ensures FirstBad(inputs) == n
  {
  }

  lemma FirstBadOfPrefix(inputs: seq<EnvVarInput>, m: nat, n: nat)
    requires m <= |inputs| && n == FirstBad(inputs)
    ensures FirstBad(inputs[..m]) == if n < m then n else m
  {
    forall j | 0 <= j < m
      ensures BadAt(inputs[..m], j) == BadAt(inputs, j)
    {
      BadIsLocal(inputs, m, j);
    }
    FirstBadIs(inputs[..m], if n < m then n else m);
  }

  /** Letters and underscores, and digits from the second place on. */
  predicate IsIdentifier(key: string) {
    && key != ""
    && forall j | 0 <= j < |key| ::
         || 'a' <= key[j] <= 'z' || 'A' <= key[j] <= 'Z' || key[j] == '_'
         || (j > 0 && '0' <= key[j] <= '9')
  }

  lemma ValidKeysAreIdentifiers(key: string)
    ensures ValidKey(key) <==> IsIdentifier(key)
  {
    if ValidKey(key) {
      forall j | 0 <= j < |key|
        ensures IsLetter(key[j]) || '0' <= key[j] <= '9'
      {
        assert key[j] in key;
      }
    }
  }

  /** Passing validation is the same as having keys that are distinct identifiers; the error names the first bad one. */
  lemma ValidMeansDistinctIdentifiers(inputs: seq<EnvVarInput>)
    ensures Validate(inputs).Ok? <==>
            && (forall i, j | 0 <= i < j < |inputs| :: inputs[i].key != inputs[j].key)
            && (forall i | 0 <= i < |inputs| :: IsIdentifier(inputs[i].key))
    ensures Validate(inputs).Ok? ==> Distinct(Keys(inputs))
    ensures Validate(inputs).Err? ==>
              exists n :: && 0 <= n < |inputs| && Validate(inputs) == Err(InvalidEnvVar(inputs[n].key))
                          && Validate(inputs[..n]).Ok? && Validate(inputs[..n + 1]).Err?
  {
    forall i | 0 <= i < |inputs|
      ensures ValidKey(inputs[i].key) <==> IsIdentifier(inputs[i].key)
    {
      ValidKeysAreIdentifiers(inputs[i].key);
    }
    if FirstBad(inputs) < |inputs| {
      FirstBadOfPrefix(inputs, FirstBad(inputs), FirstBad(inputs));
      FirstBadOfPrefix(inputs, FirstBad(inputs) + 1, FirstBad(inputs));
    }
    var n := FirstBad(inputs);
    if n == |inputs| {
      forall i | 0 <= i < |inputs|
        ensures ValidKey(inputs[i].key) && forall j | 0 <= j < i :: inputs[j].key != inputs[i].key
      {
        assert !BadAt(inputs, i);
      }
    } else if ValidKey(inputs[n].key) {
      var j :| 0 <= j < n && inputs[j].key == inputs[n].key;
      assert Keys(inputs)[j] == Keys(inputs)[n];
    }
  }

  // ---- Encryption and decryption ------------------------------------------------------------------

  /** The stored secret of that key: the first one. */
  function StoredSecret(existing: seq<EnvVar>, key: string): Option<string> {
    if |existing| == 0 then None
    else if existing[0].key == key && existing[0].value.Secret? then Some(existing[0].value.ciphertext)
    else StoredSecret(existing[1..], key)
  }

  function ResolveValue(key: SecretsKey, input: EnvVarInput, existing: seq<EnvVar>, nonce: nat)
    : Result<EnvVarValue, EnvError>
  {
    match input.value
    case PlainInput(value) => Ok(Plain(value))
    case NewSecret(value) =>
      if value == "" then Err(InvalidEnvVar(input.key))
      else if key.encrypt(nonce, value).None? then Err(CorruptData)
      else Ok(Secret(key.encrypt(nonce, value).value))
    case KeepSecret =>
      if StoredSecret(existing, input.key).None? then Err(InvalidEnvVar(input.key))
      else Ok(Secret(StoredSecret(existing, input.key).value))
  }

  /** Stops at the first input that cannot be stored. */
  function Resolve(key: SecretsKey, inputs: seq<EnvVarInput>, existing: seq<EnvVar>, nonces: nat -> nat)
    : Result<seq<EnvVar>, EnvError>
  {
    if |inputs| == 0 then Ok([]) else
    var last := |inputs| - 1;
    match Resolve(key, inputs[..last], existing, nonces)
    case Err(e) => Err(e)
    case Ok(vars) =>
      match ResolveValue(key, inputs[last], existing, nonces(last))
      case Err(e) => Err(e)
      case Ok(value) => Ok(vars + [EnvVar(inputs[last].key, value)])
  }

  function DecryptValue(key: SecretsKey, value: EnvVarValue): Option<string> {
    match value
    case Plain(text) => Some(text)
    case Secret(ciphertext) => key.decrypt(ciphertext)
  }

  function Decrypt(key: SecretsKey, vars: seq<EnvVar>): Result<seq<EnvVar>, EnvError> {
    if |vars| == 0 then Ok([]) else
    var last := |vars| - 1;
    match Decrypt(key, vars[..last])
    case Err(e) => Err(e)
    case Ok(plain) =>
      match DecryptValue(key, vars[last].value)
      case None => Err(CorruptData)
      case Some(text) => Ok(plain + [EnvVar(vars[last].key, Plain(text))])
  }

  /** A secret of that key is stored. */
  predicate Stores(existing: seq<EnvVar>, key: string, value: EnvVarValue) {
    value.Secret? && EnvVar(key, value) in existing
  }

  lemma {:induction false} StoredSecretIs(existing: seq<EnvVar>, key: string)
    ensures var found := StoredSecret(existing, key);
            if found.Some? then Stores(existing, key, Secret(found.value)) else forall v :: !Stores(existing, key, v)
  {
    if |existing| > 0 {
      StoredSecretIs(existing[1..], key);
      forall v
        ensures Stores(existing, key, v) <==>
                Stores(existing[1..], key, v) || (v.Secret? && existing[0] == EnvVar(key, v))
      {
        assert existing == [existing[0]] + existing[1..];
      }
    }
  }

  /** An input that can be stored: a secret is new and not empty, or kept and there. */
  ghost predicate Storable(key: SecretsKey, input: EnvVarInput, existing: seq<EnvVar>, nonce: nat) {
    match input.value
    case PlainInput(_) => true
    case NewSecret(text) => text != "" && key.encrypt(nonce, text).Some?
    case KeepSecret => exists v :: Stores(existing, input.key, v)
  }

  /** What is stored for it: the text itself, the new ciphertext, or the old one. */
  predicate StoredFor(key: SecretsKey, input: EnvVarInput, existing: seq<EnvVar>, nonce: nat, v: EnvVar) {
    && v.key == input.key
    && match input.value
       case PlainInput(text) => v.value == Plain(text)
       case NewSecret(text) => key.encrypt(nonce, text).Some? && v.value == Secret(key.encrypt(nonce, text).value)
       case KeepSecret => Stores(existing, input.key, v.value)
  }

  /** A list can be stored exactly if every input can, and what is stored is as each of them says. */
  lemma {:induction false} ResolveOkIff(key: SecretsKey, inputs: seq<EnvVarInput>, existing: seq<EnvVar>,
                                        nonces: nat -> nat)
    ensures var r := Resolve(key, inputs, existing, nonces);
            && (r.Ok? <==> forall i | 0 <= i < |inputs| :: Storable(key, inputs[i], existing, nonces(i)))
            && (r.Ok? ==>
                  && |r.value| == |inputs|
                  && forall i | 0 <= i < |inputs| :: StoredFor(key, inputs[i], existing, nonces(i), r.value[i]))
  {
    if |inputs| > 0 {
      var last := |inputs| - 1;
      var init := inputs[..last];
      ResolveOkIff(key, init, existing, nonces);
      StoredSecretIs(existing, inputs[last].key);
      assert forall i | 0 <= i < last :: inputs[i] == init[i];
    }
  }

  /** A list can be decrypted exactly if every secret in it can, and then it is those texts. */
  lemma {:induction false} DecryptOkIff(key: SecretsKey, vars: seq<EnvVar>)
    ensures var r := Decrypt(key, vars);
            && (r.Ok? <==> forall v | v in vars && v.value.Secret? :: key.decrypt(v.value.ciphertext).Some?)
            && (r.Err? ==> r == Err(CorruptData))
            && (r.Ok? ==>
                  && |r.value| == |vars|
                  && forall i | 0 <= i < |vars| ::
                       && r.value[i].key == vars[i].key
                       && (vars[i].value.Plain? ==> r.value[i].value == vars[i].value)
                       && (vars[i].value.Secret? ==>
                             r.value[i].value.Plain?
                             && key.decrypt(vars[i].value.ciphertext) == Some(r.value[i].value.value)))
  {
    if |vars| > 0 {
      DecryptOkIff(key, vars[..|vars|-1]);
      assert vars == vars[..|vars|-1] + [vars[|vars|-1]];
    }
  }

  // ---- The plaintext list -------------------------------------------------------------------------

  /** A variable as its owner thinks of it. */
  datatype PlainVar = PlainVar(key: string, text: string, secret: bool)

  function Revealed(plain: seq<PlainVar>): (vars: seq<EnvVar>)
    ensures |vars| == |plain|
  {
    if |plain| == 0 then []
    else Revealed(plain[..|plain|-1]) + [EnvVar(plain[|plain|-1].key, Plain(plain[|plain|-1].text))]
  }

  function OldSecret(plain: seq<PlainVar>, key: string): Option<string> {
    if |plain| == 0 then None
    else if plain[0].key == key && plain[0].secret then Some(plain[0].text)
    else OldSecret(plain[1..], key)
  }

  /** What an input makes of the list before it, if it is acceptable. */
  function Entry(input: EnvVarInput, before: seq<PlainVar>): Option<PlainVar> {
    match input.value
    case PlainInput(text) => Some(PlainVar(input.key, text, false))
    case NewSecret(text) => if text == "" then None else Some(PlainVar(input.key, text, true))
    case KeepSecret =>
      if OldSecret(before, input.key).None? then None
      else Some(PlainVar(input.key, OldSecret(before, input.key).value, true))
  }

  predicate Acceptable(inputs: seq<EnvVarInput>, before: seq<PlainVar>) {
    forall i | 0 <= i < |inputs| :: Entry(inputs[i], before).Some?
  }

  function Entries(inputs: seq<EnvVarInput>, before: seq<PlainVar>): (after: seq<PlainVar>)
    requires Acceptable(inputs, before)
    ensures |after| == |inputs| && forall i | 0 <= i < |after| :: after[i] == Entry(inputs[i], before).value
  {
    seq(|inputs|, i requires 0 <= i < |inputs| => Entry(inputs[i], before).value)
  }

  predicate Holds(key: SecretsKey, v: EnvVar, p: PlainVar) {
    v.key == p.key && v.value.Secret? == p.secret && DecryptValue(key, v.value) == Some(p.text)
  }

  /** The stored list holds the plaintext list. */
  predicate Refines(key: SecretsKey, vars: seq<EnvVar>, plain: seq<PlainVar>) {
    |vars| == |plain| && forall i | 0 <= i < |vars| :: Holds(key, vars[i], plain[i])
  }

  lemma {:induction false} DecryptOfRefined(key: SecretsKey, vars: seq<EnvVar>, plain: seq<PlainVar>)
    requires Refines(key, vars, plain)
    ensures Decrypt(key, vars) == Ok(Revealed(plain))
  {
    if |vars| > 0 {
      DecryptOfRefined(key, vars[..|vars|-1], plain[..|plain|-1]);
      assert Holds(key, vars[|vars|-1], plain[|plain|-1]);
    }
  }

  lemma {:induction false} SecretsMatch(key: SecretsKey, vars: seq<EnvVar>, plain: seq<PlainVar>, name: string)
    requires Refines(key, vars, plain)
    ensures StoredSecret(vars, name).Some? <==> OldSecret(plain, name).Some?
    ensures StoredSecret(vars, name).Some? ==> key.decrypt(StoredSecret(vars, name).value) == OldSecret(plain, name)
  {
    if |vars| > 0 {
      assert Holds(key, vars[0], plain[0]);
      SecretsMatch(key, vars[1..], plain[1..], name);
    }
  }

  lemma ResolvesOne(key: SecretsKey, input: EnvVarInput, existing: seq<EnvVar>, before: seq<PlainVar>, nonce: nat)
    requires Lawful(key) && Refines(key, existing, before)
    ensures var r := ResolveValue(key, input, existing, nonce);
            && (r.Ok? ==>
                  Entry(input, before).Some? && Holds(key, EnvVar(input.key, r.value), Entry(input, before).value))
            && (r == Err(CorruptData) ==> input.value.NewSecret? && key.encrypt(nonce, input.value.value).None?)
            && (r.Err? && r != Err(CorruptData) ==> r == Err(InvalidEnvVar(input.key)) && Entry(input, before).None?)
  {
    SecretsMatch(key, existing, before, input.key);
  }

  /**
   * Storing a list: what comes out decrypts to the plaintext list with kept secrets filled in. A list that
   * is turned away could not be stored in plaintext either, or the cipher failed on it.
   */
  lemma {:induction false} ResolveRefines(key: SecretsKey, inputs: seq<EnvVarInput>, existing: seq<EnvVar>,
                                          before: seq<PlainVar>, nonces: nat -> nat)
    requires Lawful(key) && Refines(key, existing, before)
    ensures var r := Resolve(key, inputs, existing, nonces);
            && (r.Ok? ==> Acceptable(inputs, before) && Refines(key, r.value, Entries(inputs, before)))
            && (r.Err? && r != Err(CorruptData) ==> !Acceptable(inputs, before))
            && (r == Err(CorruptData) ==>
                  exists i | 0 <= i < |inputs| ::
                    inputs[i].value.NewSecret? && key.encrypt(nonces(i), inputs[i].value.value).None?)
  {
    if |inputs| > 0 {
      var last := |inputs| - 1;
      var init := inputs[..last];
      ResolveRefines(key, init, existing, before, nonces);
      ResolvesOne(key, inputs[last], existing, before, nonces(last));
      assert inputs == init + [inputs[last]];
      if Resolve(key, init, existing, nonces) == Err(CorruptData) {
        var i :| 0 <= i < |init| && init[i].value.NewSecret? && key.encrypt(nonces(i), init[i].value.value).None?;
        assert inputs[i] == init[i];
      } else if Resolve(key, init, existing, nonces).Err? {
        var i :| 0 <= i < |init| && Entry(init[i], before).None?;
        assert inputs[i] == init[i];
      }
    }
  }
}
