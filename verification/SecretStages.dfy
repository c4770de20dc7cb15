/**
 The two secret stages of internal/controller/accounts/base_controller.go, shared by the
 controllers: the seed secret and the JWT secret.
 */
module SecretStages {
  import opened Texts
  import opened Lifecycles
  import opened Errors
  import opened Secrets
  import opened ClusterState

  // A write to the API server.
  datatype Write =
    | SecretWritten(key: Key)
    | SecretDeleted(key: Key)
    | ObjectWritten(key: Key)
    | StatusWritten(key: Key)

  // The outcome of the deferred status write.
  datatype StatusOutcome = StatusStored | StatusConflict | StatusFails

  /******* reconcileSeedSecret *******/

  // The outcome of every call the stage may make.
  datatype SeedOracle = SeedOracle(getOk: bool, newKey: Option<string>, createOk: bool, updateOk: bool)

  datatype SeedOut =
    | SeedFailed(error: Err)
    | SeedReady(store: Store, keyPair: KeyPair, seed: Seed, wrote: bool)

  function SeedStage(store: Store, o: Owner, name: string, prefix: Prefix, protect: bool, x: SeedOracle): SeedOut {
    var key := Key(o.key.ns, name);
    if !x.getOk then
      SeedFailed(TemporaryError(ConditionUncertain(UnknownError, Wrap(Plain(ApiCallFailed)))))
    else if key !in store then
      CreateSeed(store, o, name, prefix, protect, x)
    else
      UpdateSeed(store, o, name, protect, x)
  }

  function CreateSeed(store: Store, o: Owner, name: string, prefix: Prefix, protect: bool, x: SeedOracle): SeedOut {
    var key := Key(o.key.ns, name);
    if x.newKey.None? then
      SeedFailed(TemporaryError(ConditionFailed(UnknownError, Wrap(Plain(KeyGenerationFailed)))))
    else
      var seed := Seed(prefix, x.newKey.value);
      var secret := BuildSeedSecret(EmptySecret, o, seed, protect);
      if secret.None? then SeedFailed(TemporaryError(ConditionFailed(UnknownError, Wrap(Plain(BuildFailed)))))
      else if !CanCreate(store, key, x.createOk) then
        SeedFailed(TemporaryError(ConditionFailed(UnknownError, Wrap(Plain(ApiCallFailed)))))
      else SeedReady(store[key := secret.value], KeyPair(PublicKey(seed), name), seed, true)
  }

  function UpdateSeed(store: Store, o: Owner, name: string, protect: bool, x: SeedOracle): SeedOut
    requires Key(o.key.ns, name) in store
  {
    var key := Key(o.key.ns, name);
    var got := store[key];
    if SeedKey !in got.data then
      SeedFailed(TerminalError(ConditionFailed(InvalidSeedSecret, Plain(FieldMissing))))
    else if !got.data[SeedKey].SeedBlob? then
      SeedFailed(TerminalError(ConditionFailed(InvalidSeedSecret, Wrap(Plain(FieldUnparsable)))))
    else
      var seed := got.data[SeedKey].seed;
      var want := BuildSeedSecret(got, o, seed, protect);
      if want.None? then SeedFailed(TerminalError(ConditionFailed(UnknownError, Wrap(Plain(BuildFailed)))))
      else if want.value == got then SeedReady(store, KeyPair(PublicKey(seed), name), seed, false)
      else if !x.updateOk then SeedFailed(TemporaryError(ConditionFailed(UnknownError, Wrap(Plain(ApiCallFailed)))))
      else SeedReady(store[key := want.value], KeyPair(PublicKey(seed), name), seed, true)
  }

  // The secret holds exactly what the builder would write for its own seed.
  predicate SeedBuilt(store: Store, o: Owner, name: string, protect: bool) {
    var key := Key(o.key.ns, name);
    && key in store && SeedKey in store[key].data && store[key].data[SeedKey].SeedBlob?
    && BuildSeedSecret(store[key], o, store[key].data[SeedKey].seed, protect) == Some(store[key])
  }

  predicate HoldsSeed(store: Store, key: Key, seed: Seed) {
    key in store && SeedKey in store[key].data && store[key].data[SeedKey] == SeedBlob(seed)
  }

  // Whatever succeeds, the stored seed is the one reported, the secret is as built, a seed that was
  // there is kept, and nothing but this secret is touched.
  lemma SeedStageMeaning(store: Store, o: Owner, name: string, prefix: Prefix, protect: bool, x: SeedOracle)
    requires SeedStage(store, o, name, prefix, protect, x).SeedReady?
    ensures var out := SeedStage(store, o, name, prefix, protect, x);
            var key := Key(o.key.ns, name);
            && HoldsSeed(out.store, key, out.seed)
            && SeedBuilt(out.store, o, name, protect)
            && out.keyPair == KeyPair(PublicKey(out.seed), name)
            && (key in store ==> HoldsSeed(store, key, out.seed))
            && (key !in store ==> x.newKey.Some? && out.seed == Seed(prefix, x.newKey.value))
            && (out.wrote <==> !SeedBuilt(store, o, name, protect))
            && (!out.wrote ==> out.store == store)
            && out.store == store[key := out.store[key]]
  {
    var key := Key(o.key.ns, name);
    if key in store {
      RebuildSeedSecret(store[key], o, store[key].data[SeedKey].seed, protect);
    } else {
      RebuildSeedSecret(EmptySecret, o, Seed(prefix, x.newKey.value), protect);
    }
  }

  // A seed secret as the controllers write it: the seed, its owner and, if asked for, the guard.
  predicate SeedWrittenFor(store: Store, q: Key, seed: Seed, o: Owner, guarded: bool) {
    && HoldsSeed(store, q, seed) && store[q].data.Keys == {SeedKey, PublicKeyKey}
    && OwnerRef(o.kind, o.key.name, o.uid, true) in store[q].owners
    && Labelled(store[q], LabelSubject, PublicKey(seed)) && Named(store[q].labels, o)
    && (guarded ==> store[q].immutable && DeletionPrevention in store[q].finalizers)
  }

  lemma WrittenSeed(store: Store, o: Owner, name: string, prefix: Prefix, protect: bool, x: SeedOracle)
    requires SeedStage(store, o, name, prefix, protect, x).SeedReady? && SeedStage(store, o, name, prefix, protect, x).wrote
    ensures var out := SeedStage(store, o, name, prefix, protect, x); SeedWrittenFor(out.store, Key(o.key.ns, name), out.seed, o, protect)
  {
    var key := Key(o.key.ns, name);
    if key in store {
      SeedSecretBuilt(store[key], o, store[key].data[SeedKey].seed, protect);
    } else {
      SeedSecretBuilt(EmptySecret, o, Seed(prefix, x.newKey.value), protect);
    }
    hide BuildSeedSecret;
  }

  predicate SeedUsable(s: Secret, o: Owner) {
    SeedKey in s.data && s.data[SeedKey].SeedBlob? && !Foreign(s, o)
  }

  // The stage succeeds exactly when its calls do and a secret that is there holds a seed and is the object's.
  lemma SeedStageOkIff(store: Store, o: Owner, name: string, prefix: Prefix, protect: bool, x: SeedOracle)
    requires o.kind == KindOperator || o.kind == KindAccount || o.kind == KindUser
    ensures var key := Key(o.key.ns, name);
            SeedStage(store, o, name, prefix, protect, x).SeedReady? <==>
              && x.getOk
              && if key !in store then x.newKey.Some? && x.createOk
                 else SeedUsable(store[key], o) && (SeedBuilt(store, o, name, protect) || x.updateOk)
  {
    var key := Key(o.key.ns, name);
    SeedSecretBuilt(EmptySecret, o, Seed(prefix, if x.newKey.Some? then x.newKey.value else ""), protect);
    if key in store && SeedKey in store[key].data && store[key].data[SeedKey].SeedBlob? {
      SeedSecretBuilt(store[key], o, store[key].data[SeedKey].seed, protect);
    }
    hide BuildSeedSecret;
  }

  // A failure is final exactly when the secret that is there cannot be used; every other is retried.
  lemma SeedFailureMeaning(store: Store, o: Owner, name: string, prefix: Prefix, protect: bool, x: SeedOracle)
    requires o.kind == KindOperator || o.kind == KindAccount || o.kind == KindUser
    requires SeedStage(store, o, name, prefix, protect, x).SeedFailed?
    ensures var e, key := SeedStage(store, o, name, prefix, protect, x).error, Key(o.key.ns, name);
            && AsResult(e) == (CtrlResult(!(x.getOk && key in store && !SeedUsable(store[key], o))), None)
            && (Verdict(e).failure <==> x.getOk)
            && (Verdict(e).reason == InvalidSeedSecret <==>
                  x.getOk && key in store && !(SeedKey in store[key].data && store[key].data[SeedKey].SeedBlob?))
            && (Verdict(e).reason == InvalidSeedSecret || Verdict(e).reason == UnknownError)
  {
    var key := Key(o.key.ns, name);
    SeedSecretBuilt(EmptySecret, o, Seed(prefix, if x.newKey.Some? then x.newKey.value else ""), protect);
    if key in store && SeedKey in store[key].data && store[key].data[SeedKey].SeedBlob? {
      SeedSecretBuilt(store[key], o, store[key].data[SeedKey].seed, protect);
    }
    hide BuildSeedSecret;
  }

  // So for what a reconcile returns.
  predicate SeedReturns(store: Store, o: Owner, name: string, x: SeedOracle, result: CtrlResult, error: Option<Err>) {
    var key := Key(o.key.ns, name);
    error == None && (result == Done <==> x.getOk && key in store && !SeedUsable(store[key], o))
  }

  // A secret that is as built passes without a write.
  lemma SeedStageSettled(store: Store, o: Owner, name: string, prefix: Prefix, protect: bool, x: SeedOracle)
    requires SeedBuilt(store, o, name, protect) && x.getOk
    ensures var key := Key(o.key.ns, name);
            var seed := store[key].data[SeedKey].seed;
            SeedStage(store, o, name, prefix, protect, x) == SeedReady(store, KeyPair(PublicKey(seed), name), seed, false)
  {
  }

  /******* createJWTSecret and ensureJWTSecretUpToDate *******/

  datatype UpdateOutcome = Updated | Vanished | Rejected

  datatype JwtOracle = JwtOracle(getOk: bool, deleteOk: bool, createOk: bool, update: UpdateOutcome)

  // The store as the stage leaves it, whether or not the stage succeeds.
  datatype JwtOut = JwtOut(store: Store, result: Res<Jwt>, writes: seq<Write>)

  function CreateJWT(store: Store, o: Owner, name: string, next: Jwt, x: JwtOracle, writes: seq<Write>): JwtOut {
    var key := Key(o.key.ns, name);
    var secret := BuildJWTSecret(EmptySecret, o, next);
    if secret.None? then JwtOut(store, Fail(TerminalError(ConditionFailed(UnknownError, Wrap(Plain(BuildFailed))))), writes)
    else if !CanCreate(store, key, x.createOk) then
      JwtOut(store, Fail(TemporaryError(ConditionFailed(UnknownError, Wrap(Plain(ApiCallFailed))))), writes)
    else JwtOut(store[key := secret.value], Ok(next), writes + [SecretWritten(key)])
  }

  predicate OwnedBy(s: Secret, uid: string) {
    exists i :: 0 <= i < |s.owners| && s.owners[i].uid == uid
  }

  // The stored JWT decodes to these claims, up to id and issue time.
  predicate Stores(s: Secret, want: Claims) {
    JWTKey in s.data && s.data[JWTKey].JwtBlob? && s.data[JWTKey].jwt.Signed? && Equivalent(s.data[JWTKey].jwt.claims, want)
  }

  function JwtStage(store: Store, o: Owner, name: string, want: Claims, next: Jwt, x: JwtOracle): JwtOut {
    var key := Key(o.key.ns, name);
    if !x.getOk then
      JwtOut(store, Fail(TemporaryError(ConditionUncertain(UnknownError, Wrap(Plain(ApiCallFailed))))), [])
    else if key !in store then
      CreateJWT(store, o, name, next, x, [])
    else
      var got := store[key];
      if JWTKey !in got.data then
        if !OwnedBy(got, o.uid) then
          JwtOut(store, Fail(TerminalError(ConditionFailed(InvalidJWTSecret, Plain(FieldMissing)))), [])
        else if !x.deleteOk then
          JwtOut(store, Fail(TemporaryError(ConditionUncertain(UnknownError, Wrap(Plain(ApiCallFailed))))), [])
        else CreateJWT(Deleted(store, key), o, name, next, x, [SecretDeleted(key)])
      else if Stores(got, want) then
        JwtOut(store, Ok(got.data[JWTKey].jwt), [])
      else
        var built := BuildJWTSecret(got, o, next);
        if built.None? then JwtOut(store, Fail(TerminalError(ConditionFailed(UnknownError, Wrap(Plain(BuildFailed))))), [])
        else
          match x.update
          case Updated => JwtOut(store[key := built.value], Ok(next), [SecretWritten(key)])
          case Vanished => CreateJWT(store - {key}, o, name, next, x, [])
          case Rejected => JwtOut(store, Fail(TemporaryError(ConditionFailed(UnknownError, Wrap(Plain(ApiCallFailed))))), [])
  }

  // When the stage succeeds the stored JWT is the one returned and says what is wanted, whatever
  // was stored before; it writes exactly when that was not yet so.
  lemma JwtStageMeaning(store: Store, o: Owner, name: string, want: Claims, x: JwtOracle)
    requires JwtStage(store, o, name, want, Signed(want), x).result.Ok?
    ensures var out := JwtStage(store, o, name, want, Signed(want), x);
            var key := Key(o.key.ns, name);
            && key in out.store && Stores(out.store[key], want)
            && out.store[key].data[JWTKey] == JwtBlob(out.result.value)
            && (out.writes == [] <==> key in store && Stores(store[key], want))
            && (out.writes == [] ==> out.store == store)
            && (out.writes != [] ==> SeedKey !in out.store[key].data)
  {
  }

  // The stage succeeds exactly when its calls do and what is stored may be kept, replaced or updated.
  predicate JwtCallsOk(store: Store, o: Owner, name: string, want: Claims, x: JwtOracle) {
    var key := Key(o.key.ns, name);
    && x.getOk
    && if key !in store then x.createOk
       else if JWTKey !in store[key].data then
         OwnedBy(store[key], o.uid) && x.deleteOk && store[key].finalizers == {} && x.createOk
       else
         || Stores(store[key], want)
         || (!Foreign(store[key], o) && (x.update == Updated || (x.update == Vanished && x.createOk)))
  }

  // A failure is final exactly when the secret there is without JWT and not the object's, or foreign.
  predicate JwtFinal(store: Store, o: Owner, name: string, x: JwtOracle) {
    var key := Key(o.key.ns, name);
    && x.getOk && key in store
    && if JWTKey in store[key].data then Foreign(store[key], o) else !OwnedBy(store[key], o.uid)
  }

  lemma JwtStageOkIff(store: Store, o: Owner, name: string, want: Claims, next: Jwt, x: JwtOracle)
    requires o.kind == KindOperator || o.kind == KindAccount || o.kind == KindUser
    ensures var r := JwtStage(store, o, name, want, next, x).result;
            && (r.Ok? <==> JwtCallsOk(store, o, name, want, x))
            && (r.Fail? ==> AsResult(r.error) == (CtrlResult(!JwtFinal(store, o, name, x)), None))
            && (r.Fail? && !x.getOk ==> !Verdict(r.error).failure)
            && (r.Fail? && JwtFinal(store, o, name, x) ==>
                  && Verdict(r.error).failure
                  && Verdict(r.error).reason == if JWTKey in store[Key(o.key.ns, name)].data then UnknownError else InvalidJWTSecret)
  {
    var key := Key(o.key.ns, name);
    JWTSecretBuilt(EmptySecret, o, next);
    if key in store { JWTSecretBuilt(store[key], o, next); }
    hide BuildJWTSecret, OwnedBy, Stores;
  }

  // It touches no other secret, and one with finalizers survives it.
  lemma JwtStageFrame(store: Store, o: Owner, name: string, want: Claims, next: Jwt, x: JwtOracle, k: Key)
    requires k in store && k != Key(o.key.ns, name)
    ensures k in JwtStage(store, o, name, want, next, x).store
    ensures JwtStage(store, o, name, want, next, x).store[k] == store[k]
  {
  }

  // A second run with the same inputs, only stamped later, writes nothing.
  lemma JwtStageSettled(store: Store, o: Owner, name: string, want: Claims, later: Claims, x: JwtOracle, y: JwtOracle)
    requires JwtStage(store, o, name, want, Signed(want), x).result.Ok?
    requires Equivalent(want, later) && y.getOk
    ensures var out := JwtStage(store, o, name, want, Signed(want), x);
            JwtStage(out.store, o, name, later, Signed(later), y) == JwtOut(out.store, out.result, [])
  {
    JwtStageMeaning(store, o, name, want, x);
  }

  /******* Seeds survive *******/

  // A seed secret of an Operator or Account, as built: held by a finalizer and controlled.
  predicate GuardedSeed(store: Store, key: Key, seed: Seed) {
    && HoldsSeed(store, key, seed) && JWTKey !in store[key].data
    && DeletionPrevention in store[key].finalizers
    && var owner := ControllerOf(store[key].owners);
       owner.Some? && (owner.value.kind == KindOperator || owner.value.kind == KindAccount)
  }

  lemma BuiltSeedIsGuarded(store: Store, o: Owner, name: string)
    requires SeedBuilt(store, o, name, true) && (o.kind == KindOperator || o.kind == KindAccount)
    ensures var key := Key(o.key.ns, name); GuardedSeed(store, key, store[key].data[SeedKey].seed)
  {
    var s := store[Key(o.key.ns, name)];
    var t := BuildSeedSecret(s, o, s.data[SeedKey].seed, true).value;
    UpsertMeaning(s.owners, RefOf(o));
    assert t.owners == s.owners && JWTKey !in t.data && DeletionPrevention in t.finalizers;
  }

  // The seed stage of any object keeps every seed, and keeps guarded seeds guarded.
  lemma SeedStageKeepsSeeds(store: Store, o: Owner, name: string, prefix: Prefix, protect: bool, x: SeedOracle, q: Key, seed: Seed)
    requires SeedStage(store, o, name, prefix, protect, x).SeedReady?
    ensures var out := SeedStage(store, o, name, prefix, protect, x).store;
            && (HoldsSeed(store, q, seed) ==> HoldsSeed(out, q, seed))
            && (GuardedSeed(store, q, seed) ==> GuardedSeed(out, q, seed))
  {
    if q == Key(o.key.ns, name) && GuardedSeed(store, q, seed) {
      UpsertMeaning(store[q].owners, RefOf(o));
    }
  }

  // The JWT stage of any object keeps guarded seeds, even when its secret has the same name.
  lemma JwtStageKeepsSeeds(store: Store, o: Owner, name: string, want: Claims, next: Jwt, x: JwtOracle, q: Key, seed: Seed)
    requires GuardedSeed(store, q, seed)
    ensures GuardedSeed(JwtStage(store, o, name, want, next, x).store, q, seed)
  {
    if q != Key(o.key.ns, name) {
      JwtStageFrame(store, o, name, want, next, x, q);
    }
  }

  /******* The seed of a User or a SigningKey *******/

  datatype Holder = Holder(kind: Kind, name: string, uid: string)

  // A seed secret that this object controls and that nobody else owns.
  predicate OwnedSeed(store: Store, q: Key, seed: Seed, h: Holder) {
    && HoldsSeed(store, q, seed) && JWTKey !in store[q].data
    && (forall r :: r in store[q].owners ==> r.uid == h.uid)
    && var owner := ControllerOf(store[q].owners);
       owner.Some? && owner.value.kind == h.kind && owner.value.name == h.name
  }

  lemma {:induction false} UpsertKeepsUid(refs: seq<OwnerRef>, r: OwnerRef)
    requires forall other :: other in refs ==> other.uid == r.uid
    ensures forall other :: other in Upsert(refs, r) ==> other.uid == r.uid
  {
    if refs != [] && !SameObject(refs[0], r) {
      UpsertKeepsUid(refs[1..], r);
    }
  }

  // The seed stage of any object keeps it: the builder refuses all but its holder.
  lemma SeedStageKeepsOwned(store: Store, o: Owner, name: string, prefix: Prefix, protect: bool, x: SeedOracle,
                            q: Key, seed: Seed, h: Holder)
    requires OwnedSeed(store, q, seed, h) && SeedStage(store, o, name, prefix, protect, x).SeedReady?
    requires o.kind == h.kind && o.key == Key(q.ns, h.name) ==> o.uid == h.uid
    ensures OwnedSeed(SeedStage(store, o, name, prefix, protect, x).store, q, seed, h)
  {
    if q == Key(o.key.ns, name) {
      assert SameObject(ControllerOf(store[q].owners).value, RefOf(o));
      assert o.key == Key(q.ns, h.name);
      UpsertMeaning(store[q].owners, RefOf(o));
      UpsertKeepsUid(store[q].owners, RefOf(o));
    }
  }

  // The JWT stage of any other object keeps it: its loop finds no reference of its own.
  lemma JwtStageKeepsOwned(store: Store, o: Owner, name: string, want: Claims, next: Jwt, x: JwtOracle,
                           q: Key, seed: Seed, h: Holder)
    requires OwnedSeed(store, q, seed, h) && (o.uid != h.uid || q != Key(o.key.ns, name))
    ensures OwnedSeed(JwtStage(store, o, name, want, next, x).store, q, seed, h)
  {
    if q != Key(o.key.ns, name) {
      JwtStageFrame(store, o, name, want, next, x, q);
    } else {
      assert forall i :: 0 <= i < |store[q].owners| ==> store[q].owners[i] in store[q].owners;
    }
  }

  // Created or adopted, a seed secret that no other object owns is the object's own after its seed stage.
  lemma SeedStageOwns(store: Store, o: Owner, name: string, prefix: Prefix, protect: bool, x: SeedOracle)
    requires SeedStage(store, o, name, prefix, protect, x).SeedReady?
    requires var key := Key(o.key.ns, name); key in store ==> forall r :: r in store[key].owners ==> r.uid == o.uid
    ensures var out := SeedStage(store, o, name, prefix, protect, x);
            OwnedSeed(out.store, Key(o.key.ns, name), out.seed, Holder(o.kind, o.key.name, o.uid))
  {
    var key := Key(o.key.ns, name);
    var refs := if key in store then store[key].owners else [];
    UpsertMeaning(refs, RefOf(o));
    UpsertKeepsUid(refs, RefOf(o));
    SeedStageMeaning(store, o, name, prefix, protect, x);
    var out := SeedStage(store, o, name, prefix, protect, x);
    assert BuildSeedSecret(out.store[key], o, out.seed, protect) == Some(out.store[key]);
    assert out.store[key].owners == Upsert(refs, RefOf(o));
  }
}
