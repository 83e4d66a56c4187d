/**
 Extra variables of an activation: those the user gave, and those its credentials
 inject. They are stored together and told apart again by the credentials' keys.
 A document is modelled as the variables in it, an empty one as none.
 */
module ExtraVars {
  import opened Common

  datatype Kind = Vault | Aap | Ordinary

  type Vars = map<string, string>

  /** An injected variable, with the value its template gives for the credential's inputs. */
  datatype Binding = Binding(key: string, value: string)

  /** `extraVars` is absent when the credential's type has no such injector; an injector may be empty. */
  datatype Credential =
    Credential(kind: Kind, extraVars: Option<seq<Binding>>, fileKeys: seq<string>, envKeys: seq<string>)

  datatype Invalid = KeyExists(key: string) | CredentialMissing(id: nat)

  /** The variables a credential has for injection, none without an injector. */
  function Bindings(c: Credential): seq<Binding> { if c.extraVars.Some? then c.extraVars.value else [] }

  function Keys(bindings: seq<Binding>): (keys: seq<string>)
    ensures |keys| == |bindings| && forall i | 0 <= i < |keys| :: keys[i] == bindings[i].key
  {
    seq(|bindings|, i requires 0 <= i < |bindings| => bindings[i].key)
  }

  ghost predicate Distinct(keys: seq<string>) { forall i, j | 0 <= i < j < |keys| :: keys[i] != keys[j] }

  /** The injectors of a credential type are dictionaries. */
  ghost predicate Proper(c: Credential) { Distinct(Keys(Bindings(c))) && Distinct(c.fileKeys) && Distinct(c.envKeys) }

  function SetOf(keys: seq<string>): set<string> { set k | k in keys }

  function Names(c: Credential): set<string> { SetOf(Keys(Bindings(c))) }

  /** Vault and AAP credentials inject nothing, others what their injector has; an empty one is not skipped. */
  ghost predicate Injects(c: Credential) { c.kind == Ordinary && c.extraVars.Some? }

  // ------------------------------------------------- injecting and stripping

  function Extend(vars: Vars, bindings: seq<Binding>): Vars {
    if bindings == [] then vars
    else
      var last := bindings[|bindings| - 1];
      Extend(vars, bindings[..|bindings| - 1])[last.key := last.value]
  }

  /** All credentials, in turn, each over what is there. */
  function Inject(vars: Vars, credentials: seq<Credential>): Vars {
    if credentials == [] then vars
    else
      var last := credentials[|credentials| - 1];
      var before := Inject(vars, credentials[..|credentials| - 1]);
      if last.kind != Vault && last.kind != Aap && last.extraVars.Some? then Extend(before, Bindings(last)) else before
  }

  /** Every key of a credential of the list, whatever its type. */
  function AllNames(credentials: seq<Credential>): set<string> {
    set c, k | c in credentials && k in Keys(Bindings(c)) :: k
  }

  /** The keys that injecting can set. */
  ghost function InjectedNames(credentials: seq<Credential>): set<string> {
    set c, k | c in credentials && Injects(c) && k in Keys(Bindings(c)) :: k
  }

  method ExtendExtraVars(extraVar: Vars, bindings: seq<Binding>) returns (updated: Vars)
    ensures updated == Extend(extraVar, bindings)
  {
    updated := extraVar;
    for i := 0 to |bindings|
      invariant updated == Extend(extraVar, bindings[..i])
    {
      assert bindings[..i + 1][..i] == bindings[..i];
      updated := updated[bindings[i].key := bindings[i].value];
    }
    assert bindings[..|bindings|] == bindings;
  }

  /** On creation and update: each credential extends what the ones before it have made. */
  method UpdateExtraVars(extraVar: Vars, credentials: seq<Credential>) returns (updated: Vars)
    ensures updated == Inject(extraVar, credentials)
  {
    updated := extraVar;
    for i := 0 to |credentials|
      invariant updated == Inject(extraVar, credentials[..i])
    {
      assert credentials[..i + 1][..i] == credentials[..i];
      if credentials[i].kind == Vault || credentials[i].kind == Aap {
        continue;
      }
      if credentials[i].extraVars.None? {
        continue;
      }
      updated := ExtendExtraVars(updated, Bindings(credentials[i]));
    }
    assert credentials[..|credentials|] == credentials;
  }

  /** The user's part: without any key of any credential. */
  method UserExtraVars(extraVar: Vars, credentials: seq<Credential>) returns (user: Vars)
    ensures user == extraVar - AllNames(credentials)
  {
    user := extraVar;
    for i := 0 to |credentials|
      invariant user == extraVar - AllNames(credentials[..i])
    {
      ghost var before := user;
      var keys := Keys(Bindings(credentials[i]));
      for j := 0 to |keys|
        invariant user == before - SetOf(keys[..j])
      {
        assert SetOf(keys[..j + 1]) == SetOf(keys[..j]) + {keys[j]};
        user := user - {keys[j]};
      }
      assert keys[..|keys|] == keys;
      NamesSnoc(credentials[..i], credentials[i]);
      assert credentials[..i + 1] == credentials[..i] + [credentials[i]];
    }
    assert credentials[..|credentials|] == credentials;
  }

  lemma NamesSnoc(credentials: seq<Credential>, c: Credential)
    ensures AllNames(credentials + [c]) == AllNames(credentials) + Names(c)
    ensures InjectedNames(credentials + [c]) == InjectedNames(credentials) + if Injects(c) then Names(c) else {}
  {
    forall d ensures d in credentials + [c] <==> d in credentials || d == c {
    }
  }

  lemma {:induction false} ExtendAt(vars: Vars, bindings: seq<Binding>, k: string)
    ensures k in Extend(vars, bindings) <==> k in vars || k in Keys(bindings)
    ensures k !in Keys(bindings) && k in vars ==> Extend(vars, bindings)[k] == vars[k]
  {
    if bindings != [] {
      var n := |bindings| - 1;
      ExtendAt(vars, bindings[..n], k);
      assert Keys(bindings) == Keys(bindings[..n]) + [bindings[n].key];
    }
  }

  /** With distinct keys each binding is what is there afterwards. */
  lemma {:induction false} ExtendGives(vars: Vars, bindings: seq<Binding>, i: nat)
    requires i < |bindings| && Distinct(Keys(bindings))
    ensures bindings[i].key in Extend(vars, bindings) && Extend(vars, bindings)[bindings[i].key] == bindings[i].value
  {
    var n := |bindings| - 1;
    assert Keys(bindings)[i] == bindings[i].key && Keys(bindings)[n] == bindings[n].key;
    if i < n {
      assert Keys(bindings[..n]) == Keys(bindings)[..n];
      ExtendGives(vars, bindings[..n], i);
      assert bindings[..n][i] == bindings[i];
    }
  }

  lemma {:induction false} InjectAt(vars: Vars, credentials: seq<Credential>, k: string)
    ensures k in Inject(vars, credentials) <==> k in vars || k in InjectedNames(credentials)
    ensures k !in InjectedNames(credentials) && k in vars ==> Inject(vars, credentials)[k] == vars[k]
  {
    hide Extend, InjectedNames, AllNames;
    if credentials == [] {
      assert InjectedNames(credentials) == {} by { NoNames(); }
    } else {
      var n := |credentials| - 1;
      InjectAt(vars, credentials[..n], k);
      assert credentials == credentials[..n] + [credentials[n]];
      NamesSnoc(credentials[..n], credentials[n]);
      ExtendAt(Inject(vars, credentials[..n]), Bindings(credentials[n]), k);
      assert k in Names(credentials[n]) <==> k in Keys(Bindings(credentials[n]));
    }
  }

  lemma NoNames()
    ensures InjectedNames([]) == {} && AllNames([]) == {}
  {
  }

  lemma InjectedAmongAll(credentials: seq<Credential>)
    ensures InjectedNames(credentials) <= AllNames(credentials)
  {
  }

  /**
   Stripping after injecting gives the user's variables less those that share a key
   with any credential, checked or not; so all of them exactly when none does.
   */
  lemma StripInject(user: Vars, credentials: seq<Credential>)
    ensures Inject(user, credentials) - AllNames(credentials) == user - AllNames(credentials)
    ensures Inject(user, credentials) - AllNames(credentials) == user <==> user.Keys !! AllNames(credentials)
  {
    hide Inject, AllNames, InjectedNames;
    var names := AllNames(credentials);
    var back := Inject(user, credentials) - names;
    InjectedAmongAll(credentials);
    forall k ensures k in back <==> k in user - names {
      InjectAt(user, credentials, k);
    }
    forall k | k in back ensures back[k] == user[k] {
      InjectAt(user, credentials, k);
    }
    if user - names == user {
      forall k | k in user.Keys ensures k !in names {
        assert k in (user - names).Keys;
      }
    }
  }

  // ------------------------------------------------- validation

  datatype Injector = ExtraVarInjector | FileInjector | EnvInjector

  function KeysOf(c: Credential, injector: Injector): seq<string> {
    match injector
    case ExtraVarInjector => Keys(Bindings(c))
    case FileInjector => c.fileKeys
    case EnvInjector => c.envKeys
  }

  /** No key of one is a key of the other, for the same injector. */
  ghost predicate Apart(c: Credential, d: Credential) {
    forall injector :: SetOf(KeysOf(c, injector)) !! SetOf(KeysOf(d, injector))
  }

  /** What validation demands of the credentials it looks at; vault credentials it skips. */
  ghost predicate Accepted(user: set<string>, credentials: seq<Credential>) {
    && (forall i | 0 <= i < |credentials| && credentials[i].kind != Vault :: Names(credentials[i]) !! user)
    && (forall i, j | 0 <= i < j < |credentials| && credentials[i].kind != Vault && credentials[j].kind != Vault ::
          Apart(credentials[i], credentials[j]))
  }

  /** The keys of one injector over the credentials looked at. */
  ghost function Met(credentials: seq<Credential>, injector: Injector): set<string> {
    set c, k | c in credentials && c.kind != Vault && k in KeysOf(c, injector) :: k
  }

  lemma MetSnoc(credentials: seq<Credential>, c: Credential, injector: Injector)
    ensures Met(credentials + [c], injector) ==
      Met(credentials, injector) + if c.kind != Vault then SetOf(KeysOf(c, injector)) else {}
  {
    forall d ensures d in credentials + [c] <==> d in credentials || d == c {
    }
  }

  ghost predicate Fits(user: set<string>, credentials: seq<Credential>, c: Credential) {
    Names(c) !! user && forall injector :: SetOf(KeysOf(c, injector)) !! Met(credentials, injector)
  }

  lemma ApartFromMet(credentials: seq<Credential>, c: Credential)
    ensures (forall injector :: SetOf(KeysOf(c, injector)) !! Met(credentials, injector))
       <==> (forall i | 0 <= i < |credentials| && credentials[i].kind != Vault :: Apart(credentials[i], c))
  {
    hide Keys;
    if forall injector :: SetOf(KeysOf(c, injector)) !! Met(credentials, injector) {
      forall i | 0 <= i < |credentials| && credentials[i].kind != Vault ensures Apart(credentials[i], c) {
        forall injector ensures SetOf(KeysOf(credentials[i], injector)) <= Met(credentials, injector) {
        }
      }
    }
    if forall i | 0 <= i < |credentials| && credentials[i].kind != Vault :: Apart(credentials[i], c) {
      forall injector ensures SetOf(KeysOf(c, injector)) !! Met(credentials, injector) {
        forall k | k in Met(credentials, injector) ensures k !in SetOf(KeysOf(c, injector)) {
          var d :| d in credentials && d.kind != Vault && k in KeysOf(d, injector);
          var i :| 0 <= i < |credentials| && credentials[i] == d;
          assert Apart(credentials[i], c);
          assert k in SetOf(KeysOf(d, injector));
        }
      }
    }
  }

  lemma AcceptedSnoc(user: set<string>, credentials: seq<Credential>, c: Credential)
    ensures Accepted(user, credentials + [c]) <==>
      Accepted(user, credentials) && (c.kind == Vault || Fits(user, credentials, c))
  {
    hide Apart, Names, Met, SetOf, KeysOf;
    ApartFromMet(credentials, c);
    var all := credentials + [c];
    assert forall i | 0 <= i < |credentials| :: all[i] == credentials[i];
    assert all[|credentials|] == c;
  }

  /** Adds the keys of one injector to those met so far, unless one is already there. */
  method CheckInjectors(keys: seq<string>, existing: seq<string>) returns (r: Result<seq<string>, Invalid>)
    requires Distinct(keys)
    ensures r.Ok? <==> SetOf(keys) !! SetOf(existing)
    ensures r.Ok? ==> SetOf(r.value) == SetOf(existing) + SetOf(keys)
    ensures r.Err? ==> r.error.KeyExists? && r.error.key in keys && r.error.key in existing
  {
    var met := existing;
    for i := 0 to |keys|
      invariant met == existing + keys[..i]
      invariant forall k | k in keys[..i] :: k !in existing
    {
      if keys[i] in met {
        assert keys[i] !in keys[..i];
        assert keys[i] in SetOf(keys) * SetOf(existing);
        return Err(KeyExists(keys[i]));
      }
      met := met + [keys[i]];
    }
    assert keys[..|keys|] == keys;
    return Ok(met);
  }

  /** The listed credentials, if they all exist. */
  ghost predicate AllExist(table: map<nat, Credential>, ids: seq<nat>) { forall i | 0 <= i < |ids| :: ids[i] in table }

  function Listed(table: map<nat, Credential>, ids: seq<nat>): seq<Credential>
    requires forall i | 0 <= i < |ids| :: ids[i] in table
  {
    seq(|ids|, i requires 0 <= i < |ids| => table[ids[i]])
  }

  /** A credential that does not exist, or a key that one has and an earlier one, or the user, has too. */
  ghost predicate Explains(user: set<string>, table: map<nat, Credential>, ids: seq<nat>, error: Invalid) {
    match error
    case CredentialMissing(id) => id in ids && id !in table
    case KeyExists(key) =>
      exists i :: 0 <= i < |ids| && AllExist(table, ids[..i]) && ids[i] in table && table[ids[i]].kind != Vault
        && Clashes(user, Listed(table, ids[..i]), table[ids[i]], key)
  }

  ghost predicate Clashes(user: set<string>, earlier: seq<Credential>, c: Credential, key: string) {
    exists injector :: key in KeysOf(c, injector) &&
      (key in Met(earlier, injector) || (injector == ExtraVarInjector && key in user))
  }

  /** Accepts exactly the lists of existing credentials whose keys meet neither each other nor the user's. */
  method ValidateEdaCredentials(user: seq<string>, table: map<nat, Credential>, ids: seq<nat>)
    returns (r: Result<(), Invalid>)
    requires forall id | id in table :: Proper(table[id])
    ensures r.Ok? <==> AllExist(table, ids) && Accepted(SetOf(user), Listed(table, ids))
    ensures r.Err? ==> Explains(SetOf(user), table, ids, r.error)
  {
    hide Accepted, Met, Names;
    var extraVarKeys, fileKeys, envKeys := user, [], [];
    NothingMet(SetOf(user));
    assert Listed(table, ids[..0]) == [] && SetOf([]) == {};
    for i := 0 to |ids|
      invariant AllExist(table, ids[..i]) && Accepted(SetOf(user), Listed(table, ids[..i]))
      invariant SetOf(extraVarKeys) == SetOf(user) + Met(Listed(table, ids[..i]), ExtraVarInjector)
      invariant SetOf(fileKeys) == Met(Listed(table, ids[..i]), FileInjector)
      invariant SetOf(envKeys) == Met(Listed(table, ids[..i]), EnvInjector)
    {
      if ids[i] !in table {
        return Err(CredentialMissing(ids[i]));
      }
      var c := table[ids[i]];
      ListedSnoc(table, ids, i);
      OneMore(SetOf(user), Listed(table, ids[..i]), c);
      if c.kind == Vault {
        continue;
      }
      var first := CheckInjectors(Keys(Bindings(c)), extraVarKeys);
      var second := CheckInjectors(c.fileKeys, fileKeys);
      var third := CheckInjectors(c.envKeys, envKeys);
      if first.Err? || second.Err? || third.Err? {
        if AllExist(table, ids) && Accepted(SetOf(user), Listed(table, ids)) {
          AcceptedPrefix(SetOf(user), table, ids, i + 1);
        }
        var error := if first.Err? then first.error else if second.Err? then second.error else third.error;
        var injector := if first.Err? then ExtraVarInjector else if second.Err? then FileInjector else EnvInjector;
        assert error.key in KeysOf(c, injector);
        return Err(error);
      }
      extraVarKeys, fileKeys, envKeys := first.value, second.value, third.value;
    }
    assert ids[..|ids|] == ids;
    return Ok(());
  }

  lemma NothingMet(user: set<string>)
    ensures Accepted(user, []) && forall injector :: Met([], injector) == {}
  {
  }

  lemma AcceptedPrefix(user: set<string>, table: map<nat, Credential>, ids: seq<nat>, n: nat)
    requires n <= |ids| && AllExist(table, ids) && Accepted(user, Listed(table, ids))
    ensures AllExist(table, ids[..n]) && Accepted(user, Listed(table, ids[..n]))
  {
    hide Apart, Names;
    var all, some := Listed(table, ids), Listed(table, ids[..n]);
    assert forall i | 0 <= i < n :: some[i] == all[i];
  }

  lemma ListedSnoc(table: map<nat, Credential>, ids: seq<nat>, i: nat)
    requires i < |ids| && AllExist(table, ids[..i]) && ids[i] in table
    ensures AllExist(table, ids[..i + 1]) && Listed(table, ids[..i + 1]) == Listed(table, ids[..i]) + [table[ids[i]]]
  {
    assert ids[..i + 1] == ids[..i] + [ids[i]];
  }

  /** The three checks of one credential. */
  ghost predicate ChecksPass(user: set<string>, credentials: seq<Credential>, c: Credential) {
    && SetOf(Keys(Bindings(c))) !! user + Met(credentials, ExtraVarInjector)
    && SetOf(c.fileKeys) !! Met(credentials, FileInjector)
    && SetOf(c.envKeys) !! Met(credentials, EnvInjector)
  }

  lemma ChecksAreFit(user: set<string>, credentials: seq<Credential>, c: Credential)
    ensures ChecksPass(user, credentials, c) <==> Fits(user, credentials, c)
  {
    hide SetOf, Met;
    if ChecksPass(user, credentials, c) {
      forall injector ensures SetOf(KeysOf(c, injector)) !! Met(credentials, injector) {
        match injector
        case ExtraVarInjector =>
        case FileInjector =>
        case EnvInjector =>
      }
    }
  }

  lemma OneMore(user: set<string>, credentials: seq<Credential>, c: Credential)
    ensures c.kind == Vault ==> forall injector :: Met(credentials + [c], injector) == Met(credentials, injector)
    ensures c.kind != Vault ==> forall injector ::
      Met(credentials + [c], injector) == Met(credentials, injector) + SetOf(KeysOf(c, injector))
    ensures Accepted(user, credentials + [c]) <==>
      Accepted(user, credentials) && (c.kind == Vault || ChecksPass(user, credentials, c))
  {
    hide Accepted, Met, SetOf, Fits, ChecksPass, KeysOf;
    AcceptedSnoc(user, credentials, c);
    ChecksAreFit(user, credentials, c);
    forall injector
      ensures Met(credentials + [c], injector) ==
      Met(credentials, injector) + if c.kind != Vault then SetOf(KeysOf(c, injector)) else {}
    {
      MetSnoc(credentials, c, injector);
    }
  }

  // ------------------------------------------------- the round trip

  /**
   What validation accepted, with system credentials added afterwards, gives back the
   user's variables exactly when no vault credential and no added one has a key of theirs.
   */
  lemma RoundTrip(user: Vars, validated: seq<Credential>, added: seq<Credential>)
    requires Accepted(user.Keys, validated)
    ensures Inject(user, validated + added) - AllNames(validated + added) == user
       <==> (forall c | c in added || (c in validated && c.kind == Vault) :: Names(c) !! user.Keys)
  {
    hide Inject, Apart, Keys, SetOf;
    var all := validated + added;
    StripInject(user, all);
    NamesApart(user.Keys, all);
    forall c ensures c in all <==> c in validated || c in added {
    }
    forall c | c in validated && c.kind != Vault ensures Names(c) !! user.Keys {
      var i :| 0 <= i < |validated| && validated[i] == c;
      assert Names(validated[i]) !! user.Keys;
    }
  }

  lemma NamesApart(user: set<string>, credentials: seq<Credential>)
    ensures user !! AllNames(credentials) <==> forall c | c in credentials :: Names(c) !! user
  {
    if user !! AllNames(credentials) {
      forall c | c in credentials ensures Names(c) <= AllNames(credentials) {
      }
    } else {
      var k :| k in user && k in AllNames(credentials);
      var c :| c in credentials && k in Keys(Bindings(c));
      assert k in Names(c) * user;
    }
  }

  /** The injecting credentials share no key with each other or the user. */
  ghost predicate Unmixed(user: set<string>, credentials: seq<Credential>) {
    && (forall i | 0 <= i < |credentials| && Injects(credentials[i]) :: Names(credentials[i]) !! user)
    && (forall i, j | 0 <= i < j < |credentials| && Injects(credentials[i]) && Injects(credentials[j]) ::
          Names(credentials[i]) !! Names(credentials[j]))
  }

  lemma AcceptedIsUnmixed(user: set<string>, credentials: seq<Credential>)
    requires Accepted(user, credentials)
    ensures Unmixed(user, credentials)
  {
    hide Keys, SetOf;
    forall i, j | 0 <= i < j < |credentials| && Injects(credentials[i]) && Injects(credentials[j])
      ensures Names(credentials[i]) !! Names(credentials[j])
    {
      assert Apart(credentials[i], credentials[j]);
      assert KeysOf(credentials[i], ExtraVarInjector) == Keys(Bindings(credentials[i]));
      assert KeysOf(credentials[j], ExtraVarInjector) == Keys(Bindings(credentials[j]));
    }
  }

  /** Each variable of each injecting credential has the value that credential gives it. */
  lemma {:induction false} InjectGives(user: Vars, credentials: seq<Credential>, i: nat, b: nat)
    requires Unmixed({}, credentials) && i < |credentials| && Injects(credentials[i]) && Proper(credentials[i])
    requires b < |Bindings(credentials[i])|
    ensures var x := Bindings(credentials[i])[b];
      x.key in Inject(user, credentials) && Inject(user, credentials)[x.key] == x.value
  {
    hide Extend, Distinct;
    var n := |credentials| - 1;
    var x := Bindings(credentials[i])[b];
    var before := Inject(user, credentials[..n]);
    assert x.key in Names(credentials[i]) by { assert Keys(Bindings(credentials[i]))[b] == x.key; }
    if i == n {
      ExtendGives(before, Bindings(credentials[n]), b);
    } else {
      PrefixUnmixed({}, credentials);
      assert credentials[..n][i] == credentials[i];
      InjectGives(user, credentials[..n], i, b);
      if Injects(credentials[n]) {
        assert Names(credentials[i]) !! Names(credentials[n]);
        assert x.key !in Keys(Bindings(credentials[n]));
        ExtendAt(before, Bindings(credentials[n]), x.key);
      }
    }
  }

  lemma PrefixUnmixed(user: set<string>, credentials: seq<Credential>)
    requires Unmixed(user, credentials) && credentials != []
    ensures Unmixed(user, credentials[..|credentials| - 1])
  {
    hide Names, Injects;
  }

  /** A credential that is neither a vault nor an AAP one has this variable for injection. */
  ghost predicate HasToInject(c: Credential, k: string) {
    c.kind == Ordinary && c.extraVars.Some? && exists b :: b in c.extraVars.value && b.key == k
  }

  /** What injecting adds are the variables of ordinary credentials, and of no other. */
  lemma InjectedAre(vars: Vars, credentials: seq<Credential>, k: string)
    ensures k in Inject(vars, credentials) <==> k in vars || exists c :: c in credentials && HasToInject(c, k)
    ensures k in vars && !(exists c :: c in credentials && HasToInject(c, k)) ==>
      Inject(vars, credentials)[k] == vars[k]
  {
    hide Inject;
    InjectAt(vars, credentials, k);
    forall c | c in credentials ensures HasToInject(c, k) <==> Injects(c) && k in Keys(Bindings(c)) {
      if HasToInject(c, k) {
        var i :| 0 <= i < |c.extraVars.value| && c.extraVars.value[i].key == k;
        assert Keys(Bindings(c))[i] == k;
      }
    }
  }

  /**
   Changing the credentials from `former` to `updated`: what is stored afterwards are the
   user's variables, unchanged, and the new credentials' variables with their own
   values. Nothing the old credentials injected is left.
   */
  lemma CredentialsChange(user: Vars, former: seq<Credential>, updated: seq<Credential>)
    requires user.Keys !! AllNames(former) && Unmixed(user.Keys, updated) && forall c | c in updated :: Proper(c)
    ensures var stored := Inject(Inject(user, former) - AllNames(former), updated);
      && (forall k :: k in stored <==> k in user || exists c :: c in updated && HasToInject(c, k))
      && (forall k | k in user :: stored[k] == user[k])
      && (forall c, b | c in updated && c.kind == Ordinary && c.extraVars.Some? && b in c.extraVars.value ::
            b.key in stored && stored[b.key] == b.value)
  {
    hide Inject, AllNames, Unmixed, HasToInject;
    StripInject(user, former);
    var stored := Inject(user, updated);
    forall k ensures k in stored <==> k in user || exists c :: c in updated && HasToInject(c, k) {
      InjectedAre(user, updated, k);
    }
    forall k | k in user ensures stored[k] == user[k] {
      NotInjected(user.Keys, updated, k);
      InjectAt(user, updated, k);
    }
    UnmixedAlone(user.Keys, updated);
    forall c, b | c in updated && c.kind == Ordinary && c.extraVars.Some? && b in c.extraVars.value
      ensures b.key in stored && stored[b.key] == b.value
    {
      var i :| 0 <= i < |updated| && updated[i] == c;
      var j :| 0 <= j < |c.extraVars.value| && c.extraVars.value[j] == b;
      InjectGives(user, updated, i, j);
    }
  }

  lemma UnmixedAlone(user: set<string>, credentials: seq<Credential>)
    requires Unmixed(user, credentials)
    ensures Unmixed({}, credentials)
  {
    hide Names, Injects;
  }

  lemma NotInjected(user: set<string>, credentials: seq<Credential>, k: string)
    requires Unmixed(user, credentials) && k in user
    ensures k !in InjectedNames(credentials)
  {
    forall i | 0 <= i < |credentials| && Injects(credentials[i]) ensures k !in Keys(Bindings(credentials[i])) {
      assert k !in Names(credentials[i]);
    }
  }

  // ------------------------------------------------- refreshing a stored document

  /**
   Checking an existing activation: each credential extends the document given, and the last one's
   result is saved.
   */
  function Refresh(stored: Vars, credentials: seq<Credential>): Vars {
    if credentials == [] then stored
    else
      var last := credentials[|credentials| - 1];
      if last.kind != Vault && last.kind != Aap && last.extraVars.Some? then Extend(stored, Bindings(last))
      else Refresh(stored, credentials[..|credentials| - 1])
  }

  method RefreshExtraVars(stored: Vars, credentials: seq<Credential>) returns (saved: Vars)
    ensures saved == Refresh(stored, credentials)
  {
    saved := stored;
    for i := 0 to |credentials|
      invariant saved == Refresh(stored, credentials[..i])
    {
      assert credentials[..i + 1][..i] == credentials[..i];
      if credentials[i].kind == Vault || credentials[i].kind == Aap {
        continue;
      }
      if credentials[i].extraVars.None? {
        continue;
      }
      saved := ExtendExtraVars(stored, Bindings(credentials[i]));
    }
    assert credentials[..|credentials|] == credentials;
  }

  /** A credential with an injector, empty or not, and another such one behind it. */
  ghost predicate Earlier(credentials: seq<Credential>, i: nat) {
    i < |credentials| && Injects(credentials[i]) && exists j :: i < j < |credentials| && Injects(credentials[j])
  }

  /** The document already has the credential's variables with the values they have now. */
  ghost predicate Holds(stored: Vars, c: Credential) {
    forall b | b in Bindings(c) :: b.key in stored && stored[b.key] == b.value
  }

  /**
   So it refreshes the variables of the last injecting credential only: the result is
   that of injecting them all exactly when the document already holds the current
   variables of every earlier one.
   */
  lemma {:induction false} RefreshIsInjectIff(stored: Vars, credentials: seq<Credential>)
    requires Unmixed({}, credentials) && forall c | c in credentials :: Proper(c)
    ensures Refresh(stored, credentials) == Inject(stored, credentials)
       <==> forall i | 0 <= i < |credentials| && Earlier(credentials, i) :: Holds(stored, credentials[i])
  {
    hide Inject, Refresh, Holds, Proper;
    if exists i :: 0 <= i < |credentials| && Injects(credentials[i]) {
      var last := LastInjecting(credentials, |credentials|);
      RefreshesLast(stored, credentials, last);
      HeldIff(stored, credentials, last);
      forall i | 0 <= i < |credentials| ensures Earlier(credentials, i) <==> i < last && Injects(credentials[i]) {
      }
    } else {
      NothingInjects(stored, credentials);
    }
  }

  lemma {:induction false} LastInjecting(credentials: seq<Credential>, n: nat) returns (last: nat)
    requires n <= |credentials| && exists i :: 0 <= i < n && Injects(credentials[i])
    ensures last < n && Injects(credentials[last]) && forall j | last < j < n :: !Injects(credentials[j])
  {
    last := n - 1;
    if !Injects(credentials[last]) {
      last := LastInjecting(credentials, n - 1);
    }
  }

  lemma {:induction false} NothingInjects(stored: Vars, credentials: seq<Credential>)
    requires forall i | 0 <= i < |credentials| :: !Injects(credentials[i])
    ensures Refresh(stored, credentials) == stored == Inject(stored, credentials)
  {
    if credentials != [] {
      NothingInjects(stored, credentials[..|credentials| - 1]);
    }
  }

  /** Injecting what the document already holds changes nothing, and conversely. */
  lemma {:induction false} HeldIff(stored: Vars, credentials: seq<Credential>, n: nat)
    requires n <= |credentials| && Unmixed({}, credentials) && forall c | c in credentials :: Proper(c)
    ensures Inject(stored, credentials[..n]) == stored
       <==> forall i | 0 <= i < n && Injects(credentials[i]) :: Holds(stored, credentials[i])
  {
    hide Inject, Proper;
    var some := credentials[..n];
    assert forall i | 0 <= i < n :: some[i] == credentials[i];
    TakeUnmixed({}, credentials, n);
    if Inject(stored, some) == stored {
      forall i | 0 <= i < n && Injects(credentials[i]) ensures Holds(stored, credentials[i]) {
        forall b | b in Bindings(credentials[i]) ensures b.key in stored && stored[b.key] == b.value {
          var k :| 0 <= k < |Bindings(credentials[i])| && Bindings(credentials[i])[k] == b;
          InjectGives(stored, some, i, k);
        }
      }
    }
    if forall i | 0 <= i < n && Injects(credentials[i]) :: Holds(stored, credentials[i]) {
      InjectHeld(stored, some);
    }
  }

  lemma TakeUnmixed(user: set<string>, credentials: seq<Credential>, n: nat)
    requires n <= |credentials| && Unmixed(user, credentials)
    ensures Unmixed(user, credentials[..n])
  {
    hide Names, Injects;
  }

  lemma {:induction false} InjectHeld(stored: Vars, credentials: seq<Credential>)
    requires forall i | 0 <= i < |credentials| && Injects(credentials[i]) :: Holds(stored, credentials[i])
    ensures Inject(stored, credentials) == stored
  {
    if credentials != [] {
      var n := |credentials| - 1;
      InjectHeld(stored, credentials[..n]);
      if Injects(credentials[n]) {
        ExtendHeld(stored, Bindings(credentials[n]));
      }
    }
  }

  lemma {:induction false} ExtendHeld(stored: Vars, bindings: seq<Binding>)
    requires forall b | b in bindings :: b.key in stored && stored[b.key] == b.value
    ensures Extend(stored, bindings) == stored
  {
    if bindings != [] {
      ExtendHeld(stored, bindings[..|bindings| - 1]);
      assert bindings[|bindings| - 1] in bindings;
    }
  }

  /** Where it falls short: the first of two credentials has a new value, which a refresh does not bring. */
  lemma RefreshMissesOne(c: Credential, d: Credential)
    requires c == Credential(Ordinary, Some([Binding("user", "new")]), [], [])
    requires d == Credential(Ordinary, Some([Binding("host", "h")]), [], [])
    ensures var stored: Vars := map["user" := "old", "host" := "h"];
      Refresh(stored, [c, d]) == stored && Inject(stored, [c, d]) == map["user" := "new", "host" := "h"]
  {
    var stored: Vars := map["user" := "old", "host" := "h"];
    var newer := stored["user" := "new"];
    assert [c, d][..1] == [c] && [c][..0] == [];
    ExtendOne(stored, Bindings(c)[0]);
    ExtendOne(stored, Bindings(d)[0]);
    ExtendOne(newer, Bindings(d)[0]);
    assert Inject(stored, []) == stored;
    assert Inject(stored, [c]) == newer;
    assert Inject(stored, [c, d]) == newer["host" := "h"] == map["user" := "new", "host" := "h"];
  }

  /**
   A credential whose injector is empty counts too: behind another one it puts the stored
   document back. One without an injector does not.
   */
  lemma RefreshPutsBack(c: Credential, empty: Credential, none: Credential)
    requires c == Credential(Ordinary, Some([Binding("user", "new")]), [], [])
    requires empty == Credential(Ordinary, Some([]), [], []) && none == Credential(Ordinary, None, [], [])
    ensures var stored: Vars := map["user" := "old"];
      && Refresh(stored, [c, empty]) == stored
      && Refresh(stored, [c, none]) == Inject(stored, [c, none]) == Inject(stored, [c, empty]) == map["user" := "new"]
  {
    var stored: Vars := map["user" := "old"];
    assert [c, empty][..1] == [c] && [c, none][..1] == [c] && [c][..0] == [];
    ExtendOne(stored, Bindings(c)[0]);
    assert Inject(stored, []) == stored;
    assert Inject(stored, [c]) == Refresh(stored, [c]) == map["user" := "new"];
  }

  lemma ExtendOne(vars: Vars, b: Binding)
    ensures Extend(vars, [b]) == vars[b.key := b.value]
  {
    assert [b][..0] == [];
  }

  /** The round trip falls short for a variable that shares its name with a key of a vault credential. */
  lemma RoundTripLosesOne(vault: Credential)
    requires vault == Credential(Vault, Some([Binding("pw", "")]), [], [])
    ensures var user: Vars := map["pw" := "mine"];
      Accepted(user.Keys, [vault]) && Inject(user, [vault]) - AllNames([vault]) == map[]
  {
    var user: Vars := map["pw" := "mine"];
    assert [vault][..0] == [];
    assert Inject(user, []) == user;
    assert Keys(Bindings(vault))[0] == "pw";
    NamesSnoc([], vault);
    assert [] + [vault] == [vault] && "pw" in Names(vault);
  }

  /** Each credential extends the stored document, so only the last one counts. */
  lemma {:induction false} RefreshesLast(stored: Vars, credentials: seq<Credential>, last: nat)
    requires last < |credentials| && Injects(credentials[last])
    requires forall j | last < j < |credentials| :: !Injects(credentials[j])
    requires Unmixed({}, credentials)
    ensures Refresh(stored, credentials) == Inject(stored, credentials) <==>
      Inject(stored, credentials[..last]) == stored
  {
    LastCounts(stored, credentials, last);
    PrefixApart(credentials, last);
    hide Inject, Refresh, Extend, InjectedNames, AllNames;
    var bindings := Bindings(credentials[last]);
    var before := Inject(stored, credentials[..last]);
    var all, once := Extend(before, bindings), Extend(stored, bindings);
    if all == once {
      forall k ensures (k in before <==> k in stored) && (k in before ==> before[k] == stored[k]) {
        InjectAt(stored, credentials[..last], k);
        ExtendAt(before, bindings, k);
        ExtendAt(stored, bindings, k);
        assert k in Keys(bindings) <==> k in Names(credentials[last]);
      }
    }
  }

  lemma PrefixApart(credentials: seq<Credential>, last: nat)
    requires last < |credentials| && Injects(credentials[last]) && Unmixed({}, credentials)
    ensures InjectedNames(credentials[..last]) !! Names(credentials[last])
  {
    forall k | k in InjectedNames(credentials[..last]) ensures k !in Names(credentials[last]) {
      var c :| c in credentials[..last] && Injects(c) && k in Keys(Bindings(c));
      var i :| 0 <= i < last && credentials[i] == c;
      assert k in Names(credentials[i]);
    }
  }

  lemma {:induction false} LastCounts(stored: Vars, credentials: seq<Credential>, last: nat)
    requires last < |credentials| && Injects(credentials[last])
    requires forall j | last < j < |credentials| :: !Injects(credentials[j])
    ensures Refresh(stored, credentials) == Extend(stored, Bindings(credentials[last]))
    ensures Inject(stored, credentials) == Extend(Inject(stored, credentials[..last]), Bindings(credentials[last]))
  {
    hide Extend;
    var n := |credentials| - 1;
    if last < n {
      LastCounts(stored, credentials[..n], last);
      assert credentials[..n][..last] == credentials[..last];
    }
  }
}
