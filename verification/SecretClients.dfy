/**
 The methods of BaseReconciler that write secrets, as they run: each builds a secret in place and
 writes it to the server. They are proved against the stages of SecretStages.
 */
module SecretClients {
  import opened Texts
  import opened Lifecycles
  import opened Errors
  import opened Secrets
  import opened ClusterState
  import opened SecretStages

  // One reconcile's connection to the server: its secrets, and what has been written.
  class SecretClient {
    var store: Store
    var writes: seq<Write>

    constructor (secrets: Store)
      ensures store == secrets && writes == []
    {
      store, writes := secrets, [];
    }

    /******* Seeds *******/

    method ReconcileSeedSecret(o: Owner, name: string, prefix: Prefix, protect: bool, x: SeedOracle)
      returns (r: Res<(KeyPair, Seed)>, requeue: bool)
      modifies this
      ensures match SeedStage(old(store), o, name, prefix, protect, x)
              case SeedFailed(e) => r == Fail(e) && store == old(store) && writes == old(writes)
              case SeedReady(store', kp, seed, wrote) =>
                && r == Ok((kp, seed)) && requeue == wrote && store == store'
                && writes == if wrote then old(writes) + [SecretWritten(Key(o.key.ns, name))] else old(writes)
    {
      var key := Key(o.key.ns, name);
      requeue := false;
      if !x.getOk {
        r := Fail(TemporaryError(ConditionUncertain(UnknownError, Wrap(Plain(ApiCallFailed)))));
      } else if key !in store {
        r := CreateSeedSecret(o, name, prefix, protect, x);
        requeue := true;
      } else {
        r, requeue := EnsureSeedSecretUpToDate(o, name, protect, x);
      }
    }

    method CreateSeedSecret(o: Owner, name: string, prefix: Prefix, protect: bool, x: SeedOracle) returns (r: Res<(KeyPair, Seed)>)
      modifies this
      ensures match CreateSeed(old(store), o, name, prefix, protect, x)
              case SeedFailed(e) => r == Fail(e) && store == old(store) && writes == old(writes)
              case SeedReady(store', kp, seed, wrote) =>
                r == Ok((kp, seed)) && wrote && store == store' && writes == old(writes) + [SecretWritten(Key(o.key.ns, name))]
    {
      var key := Key(o.key.ns, name);
      if x.newKey.None? { return Fail(TemporaryError(ConditionFailed(UnknownError, Wrap(Plain(KeyGenerationFailed))))); }
      var seed := Seed(prefix, x.newKey.value);
      var builder := new SecretBuilder();
      var secret := builder.BuildSeed(o, seed, protect);
      if secret.None? { return Fail(TemporaryError(ConditionFailed(UnknownError, Wrap(Plain(BuildFailed))))); }
      if !CanCreate(store, key, x.createOk) { return Fail(TemporaryError(ConditionFailed(UnknownError, Wrap(Plain(ApiCallFailed))))); }
      store := store[key := secret.value];
      writes := writes + [SecretWritten(key)];
      return Ok((KeyPair(PublicKey(seed), name), seed));
    }

    method EnsureSeedSecretUpToDate(o: Owner, name: string, protect: bool, x: SeedOracle) returns (r: Res<(KeyPair, Seed)>, requeue: bool)
      requires Key(o.key.ns, name) in store
      modifies this
      ensures match UpdateSeed(old(store), o, name, protect, x)
              case SeedFailed(e) => r == Fail(e) && store == old(store) && writes == old(writes)
              case SeedReady(store', kp, seed, wrote) =>
                && r == Ok((kp, seed)) && requeue == wrote && store == store'
                && writes == if wrote then old(writes) + [SecretWritten(Key(o.key.ns, name))] else old(writes)
    {
      requeue := false;
      var key := Key(o.key.ns, name);
      var got := store[key];
      if SeedKey !in got.data {
        r := Fail(TerminalError(ConditionFailed(InvalidSeedSecret, Plain(FieldMissing))));
        return;
      }
      if !got.data[SeedKey].SeedBlob? {
        r := Fail(TerminalError(ConditionFailed(InvalidSeedSecret, Wrap(Plain(FieldUnparsable)))));
        return;
      }
      var seed := got.data[SeedKey].seed;
      var builder := new SecretBuilder.FromSecret(got);
      var want := builder.BuildSeed(o, seed, protect);
      if want.None? {
        r := Fail(TerminalError(ConditionFailed(UnknownError, Wrap(Plain(BuildFailed)))));
        return;
      }
      if want.value != got {
        if !x.updateOk {
          r := Fail(TemporaryError(ConditionFailed(UnknownError, Wrap(Plain(ApiCallFailed)))));
          return;
        }
        store := store[key := want.value];
        writes := writes + [SecretWritten(key)];
        requeue := true;
      }
      r := Ok((KeyPair(PublicKey(seed), name), seed));
    }

    /******* JWTs *******/

    method CreateJWTSecret(o: Owner, name: string, next: Jwt, x: JwtOracle) returns (r: Res<Jwt>)
      modifies this
      ensures JwtOut(store, r, writes) == CreateJWT(old(store), o, name, next, x, old(writes))
    {
      var key := Key(o.key.ns, name);
      var builder := new SecretBuilder();
      var secret := builder.BuildJWT(o, next);
      if secret.None? { return Fail(TerminalError(ConditionFailed(UnknownError, Wrap(Plain(BuildFailed))))); }
      if !CanCreate(store, key, x.createOk) { return Fail(TemporaryError(ConditionFailed(UnknownError, Wrap(Plain(ApiCallFailed))))); }
      store := store[key := secret.value];
      writes := writes + [SecretWritten(key)];
      return Ok(next);
    }

    // The read before it, and ensureJWTSecretUpToDate.
    method ReconcileJWTSecret(o: Owner, name: string, want: Claims, next: Jwt, x: JwtOracle) returns (r: Res<Jwt>)
      requires writes == []
      modifies this
      ensures JwtOut(store, r, writes) == JwtStage(old(store), o, name, want, next, x)
    {
      var key := Key(o.key.ns, name);
      if !x.getOk {
        r := Fail(TemporaryError(ConditionUncertain(UnknownError, Wrap(Plain(ApiCallFailed)))));
      } else if key !in store {
        r := CreateJWTSecret(o, name, next, x);
      } else {
        var got := store[key];
        if JWTKey !in got.data {
          r := ReplaceJWTSecret(o, name, next, x);
        } else if Stores(got, want) {
          r := Ok(got.data[JWTKey].jwt);
        } else {
          r := UpdateJWTSecret(o, name, next, x);
        }
      }
    }

    // A secret without the field is deleted and made anew, if it is the owner's.
    method ReplaceJWTSecret(o: Owner, name: string, next: Jwt, x: JwtOracle) returns (r: Res<Jwt>)
      requires writes == [] && Key(o.key.ns, name) in store
      modifies this
      ensures var key := Key(o.key.ns, name);
              JwtOut(store, r, writes) ==
                if !OwnedBy(old(store)[key], o.uid) then
                  JwtOut(old(store), Fail(TerminalError(ConditionFailed(InvalidJWTSecret, Plain(FieldMissing)))), [])
                else if !x.deleteOk then
                  JwtOut(old(store), Fail(TemporaryError(ConditionUncertain(UnknownError, Wrap(Plain(ApiCallFailed))))), [])
                else CreateJWT(Deleted(old(store), key), o, name, next, x, [SecretDeleted(key)])
    {
      var key := Key(o.key.ns, name);
      var owners := store[key].owners;
      for i := 0 to |owners|
        invariant store == old(store) && writes == []
        invariant forall j :: 0 <= j < i ==> owners[j].uid != o.uid
      {
        if owners[i].uid == o.uid {
          if !x.deleteOk { return Fail(TemporaryError(ConditionUncertain(UnknownError, Wrap(Plain(ApiCallFailed))))); }
          store := Deleted(store, key);
          writes := [SecretDeleted(key)];
          r := CreateJWTSecret(o, name, next, x);
          return;
        }
      }
      return Fail(TerminalError(ConditionFailed(InvalidJWTSecret, Plain(FieldMissing))));
    }

    method UpdateJWTSecret(o: Owner, name: string, next: Jwt, x: JwtOracle) returns (r: Res<Jwt>)
      requires writes == [] && Key(o.key.ns, name) in store
      modifies this
      ensures var key := Key(o.key.ns, name);
              var built := BuildJWTSecret(old(store)[key], o, next);
              JwtOut(store, r, writes) ==
                if built.None? then JwtOut(old(store), Fail(TerminalError(ConditionFailed(UnknownError, Wrap(Plain(BuildFailed))))), [])
                else
                  match x.update
                  case Updated => JwtOut(old(store)[key := built.value], Ok(next), [SecretWritten(key)])
                  case Vanished => CreateJWT(old(store) - {key}, o, name, next, x, [])
                  case Rejected => JwtOut(old(store), Fail(TemporaryError(ConditionFailed(UnknownError, Wrap(Plain(ApiCallFailed))))), [])
    {
      var key := Key(o.key.ns, name);
      var builder := new SecretBuilder.FromSecret(store[key]);
      var want := builder.BuildJWT(o, next);
      if want.None? { return Fail(TerminalError(ConditionFailed(UnknownError, Wrap(Plain(BuildFailed))))); }
      match x.update
      case Updated =>
        store := store[key := want.value];
        writes := [SecretWritten(key)];
        r := Ok(next);
      case Vanished =>
        store := store - {key};
        r := CreateJWTSecret(o, name, next, x);
      case Rejected =>
        r := Fail(TemporaryError(ConditionFailed(UnknownError, Wrap(Plain(ApiCallFailed)))));
    }
  }
}
