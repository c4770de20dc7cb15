/**
 What every reconcile of an Account keeps, for every combination of API outcomes.
 */
module AccountTheorems {
  import opened Texts
  import opened Lifecycles
  import opened Errors
  import opened Secrets
  import opened SigningKeys
  import opened ClusterState
  import opened SecretStages
  import opened AccountController

  /******* What preparation establishes *******/

  predicate FailureExit(e: Exit) {
    e.SeedFailure? || e.IssuerFailure? || e.OperatorFailure? || e.IssuerSeedFailure? || e.JWTFailure? || e.PushFailure?
  }

  // The failures of a live Account that mark nothing: the finalizer or the label cannot be written, the
  // signing keys cannot be listed.
  predicate Unmarked(e: Exit) { e.FinalizerNotAdded? || e.LabelNotWritten? || e.KeysFailure? }

  // The conditions that the way to such an exit does not mark are all True.
  predicate RestTrue(e: Exit, s: AccountStatus) {
    && IsTrue(s.issuer) && IsTrue(s.keys) && IsTrue(s.jwt) && IsTrue(s.pushed)
    && (e.FinalizerNotAdded? ==> IsTrue(s.seed) && IsTrue(s.operator))
  }

  lemma UnmarkedKeepsReady(s: AccountStatus, kp: KeyPair, key: Key)
    ensures s.Ready() <==> RestTrue(FinalizerNotAdded, s)
    ensures s.MarkSeedSecretReady(kp).MarkOperatorResolved(key).Ready() <==> RestTrue(LabelNotWritten, s)
    ensures s.MarkSeedSecretReady(kp).MarkOperatorResolved(key).Ready() <==> RestTrue(KeysFailure, s)
  {
  }

  lemma RestOfInitial(s: AccountStatus)
    ensures forall e :: RestTrue(e, s.InitializeConditions()) <==> RestTrue(e, s)
  {
  }

  // The Operator is cleared while what was said of the JWT stands.
  predicate Unresolved(s: AccountStatus, s': AccountStatus) {
    s'.operatorRef == None && s'.jwt == s.jwt && s'.pushed == s.pushed
  }

  // An early end: coupled, not Ready after a failure, no push.
  predicate HaltsWell(c: Cluster, k: Key, p: Plan)
    requires k in c.accounts
  {
    && p.status.Coupled() && p.exit != Pushed && p.exit != Finalized && p.nats == NoCall
    && (FailureExit(p.exit) ==> !p.status.Ready())
    && p.finalizers == c.accounts[k].finalizers
  }

  lemma PrepareKeysMeaning(c: Cluster, k: Key, s: AccountStatus, issuer: KeyPairable, x: AccountOracle)
    requires k in c.accounts && s.Coupled()
    ensures match PrepareKeys(c, k, s, issuer, x)
            case Halt(p) => HaltsWell(c, k, p) && p.store == c.secrets && p.exit != OperatorFailure && (Unmarked(p.exit) ==> p.exit != FinalizerNotAdded && p.status == s)
            case Go(s', seed) =>
              && LoadAccountIssuerSeed(c, issuer, x.issuerSeedOk) == Ok(seed)
              && s' == s.MarkSigningKeysUpdated(x.keys).MarkIssuerResolved()
  {
    hide LoadAccountIssuerSeed, Verdict;
  }

  lemma PrepareLabelsMeaning(c: Cluster, k: Key, s: AccountStatus, issuer: KeyPairable, name: string, x: AccountOracle)
    requires Coupled(c) && k in c.accounts && s.Coupled()
    ensures match PrepareLabels(c, k, s, issuer, name, x)
            case Halt(p) => HaltsWell(c, k, p) && p.store == c.secrets && p.exit != OperatorFailure && (Unmarked(p.exit) ==> p.exit != FinalizerNotAdded && p.status == s)
            case Go(s', seed) =>
              && LoadAccountIssuerSeed(c, issuer, x.issuerSeedOk) == Ok(seed)
              && LabelOf(c.accounts[k].labels) == name
              && s' == s.MarkSigningKeysUpdated(x.keys).MarkIssuerResolved()
  {
    hide PrepareKeys, LoadAccountIssuerSeed, LabelOf;
    hide AccountStatus.Coupled, AccountStatus.Ready;
    PrepareKeysMeaning(c, k, s, issuer, x);
  }

  lemma PrepareOperatorMeaning(c: Cluster, k: Key, s: AccountStatus, issuer: KeyPairable, x: AccountOracle)
    requires Coupled(c) && k in c.accounts && s.Coupled()
    requires issuer.IssuerSigningKey? ==> issuer.signingKey.status.Coupled()
    ensures var op := FindOperator(c, k, issuer, x.ownerOk, x.namespaceOk);
            match PrepareOperator(c, k, s, issuer, x)
            case Halt(p) =>
              && HaltsWell(c, k, p) && p.store == c.secrets && (p.exit == OperatorFailure ==> Unresolved(s, p.status))
              && (Unmarked(p.exit) ==> p.exit != FinalizerNotAdded && op.Ok? && p.status == s.MarkOperatorResolved(op.value))
            case Go(s', seed) =>
              && LoadAccountIssuerSeed(c, issuer, x.issuerSeedOk) == Ok(seed)
              && op.Ok?
              && LabelOf(c.accounts[k].labels) == op.value.name
              && s' == s.MarkOperatorResolved(op.value).MarkSigningKeysUpdated(x.keys).MarkIssuerResolved()
  {
    hide PrepareLabels, FindOperator, Verdict, LoadAccountIssuerSeed, MarkOperator, LabelOf;
    hide AccountStatus.Coupled, AccountStatus.Ready;
    match FindOperator(c, k, issuer, x.ownerOk, x.namespaceOk)
    case Fail(_) =>
    case Ok(key) => PrepareLabelsMeaning(c, k, s.MarkOperatorResolved(key), issuer, key.name, x);
  }

  // What holds when preparation goes through: every stage passed without a write, and the status
  // records what it found.
  predicate SetToSign(c: Cluster, k: Key, s: AccountStatus, x: AccountOracle, s': AccountStatus, seed: Seed)
    requires Coupled(c) && k in c.accounts
  {
    var out := AccountSeedStage(c, k, x);
    var issuer := ResolveIssuer(c, c.accounts[k].spec.issuer, k.ns, x.issuerOk);
    && out.SeedReady? && !out.wrote
    && issuer.Ok?
    && LoadAccountIssuerSeed(c, issuer.value, x.issuerSeedOk) == Ok(seed)
    && FindOperator(c, k, issuer.value, x.ownerOk, x.namespaceOk).Ok?
    && LabelOf(c.accounts[k].labels) == FindOperator(c, k, issuer.value, x.ownerOk, x.namespaceOk).value.name
    && s' == s.MarkSeedSecretReady(out.keyPair)
              .MarkOperatorResolved(FindOperator(c, k, issuer.value, x.ownerOk, x.namespaceOk).value)
              .MarkSigningKeysUpdated(x.keys).MarkIssuerResolved()
  }

  // The secrets as they were, or as a successful seed stage leaves them.
  predicate AfterSeedStage(c: Cluster, k: Key, x: AccountOracle, store: Store)
    requires k in c.accounts
  {
    store == c.secrets || (AccountSeedStage(c, k, x).SeedReady? && store == AccountSeedStage(c, k, x).store)
  }

  lemma PrepareMeaning(c: Cluster, k: Key, s: AccountStatus, x: AccountOracle)
    requires Coupled(c) && k in c.accounts && s.Coupled()
    ensures match PrepareSeed(c, k, s, x)
            case Halt(p) =>
              && HaltsWell(c, k, p) && AfterSeedStage(c, k, x, p.store) && (p.exit == OperatorFailure ==> Unresolved(s, p.status))
              && (Unmarked(p.exit) ==> p.exit != FinalizerNotAdded && (p.status.Ready() <==> RestTrue(p.exit, s)))
            case Go(s', seed) => SetToSign(c, k, s, x, s', seed) && s'.Coupled()
  {
    hide PrepareOperator, FindOperator, Verdict, LoadAccountIssuerSeed, AccountSeedStage, MarkSeed, MarkIssuer;
    hide AccountStatus.Coupled, AccountStatus.Ready, RestTrue;
    var out := AccountSeedStage(c, k, x);
    if out.SeedReady? && !out.wrote {
      var issuer := ResolveIssuer(c, c.accounts[k].spec.issuer, k.ns, x.issuerOk);
      if issuer.Ok? {
        PrepareOperatorMeaning(c, k, s.MarkSeedSecretReady(out.keyPair), issuer.value, x);
        var op := FindOperator(c, k, issuer.value, x.ownerOk, x.namespaceOk);
        if op.Ok? { UnmarkedKeepsReady(s, out.keyPair, op.value); }
      }
    }
  }

  /******* Storing and pushing *******/

  function JwtKey(c: Cluster, k: Key): Key
    requires k in c.accounts
  {
    Key(k.ns, c.accounts[k].spec.jwtSecretName)
  }

  function SeedSecretKey(c: Cluster, k: Key): Key
    requires k in c.accounts
  {
    Key(k.ns, c.accounts[k].spec.seedSecretName)
  }

  // This JWT is the one in the Account's JWT secret.
  predicate StoredJwt(c: Cluster, k: Key, store: Store, jwt: Jwt)
    requires k in c.accounts
  {
    JwtKey(c, k) in store && JWTKey in store[JwtKey(c, k)].data && store[JwtKey(c, k)].data[JWTKey] == JwtBlob(jwt)
  }

  predicate StoresWell(c: Cluster, k: Key, s: AccountStatus, want: Claims, p: Plan)
    requires k in c.accounts
  {
    && p.status.Coupled()
    && (p.exit == Pushed || p.exit == PushFailure || p.exit == JWTFailure || p.exit == JWTWritten)
    && (p.exit != Pushed && p.exit != JWTWritten ==> !p.status.Ready())
    && (p.exit == Pushed ==> p.status == s.MarkJWTSecretReady().MarkJWTPushed())
    && (p.exit == Pushed ==> p.nats.PushSent?)
    && !p.nats.Revoked?
    && (p.nats.PushSent? && p.exit != Pushed ==> !IsTrue(p.status.pushed))
    && (p.nats.PushSent? ==>
          && p.store == c.secrets && StoredJwt(c, k, p.store, p.nats.jwt)
          && p.nats.jwt.Signed? && Equivalent(p.nats.jwt.claims, want)
          && p.status.keyPair == s.keyPair && p.status.signingKeys == s.signingKeys && p.status.operatorRef == s.operatorRef)
    && p.finalizers == c.accounts[k].finalizers
  }

  lemma PushMeaning(c: Cluster, k: Key, s: AccountStatus, jwt: Jwt, want: Claims, x: AccountOracle)
    requires k in c.accounts && s.Coupled()
    requires StoredJwt(c, k, c.secrets, jwt) && jwt.Signed? && Equivalent(jwt.claims, want)
    ensures StoresWell(c, k, s, want, Push(c, k, s.MarkJWTSecretReady(), jwt, x))
  {
    hide Equivalent, StoredJwt;
  }

  lemma StoreJWTMeaning(c: Cluster, k: Key, s: AccountStatus, seed: Seed, x: AccountOracle)
    requires k in c.accounts && s.Coupled()
    ensures StoresWell(c, k, s, WantedClaims(c, k, s, seed, x), StoreJWT(c, k, s, seed, x))
  {
    hide Verdict, MarkJWT, Equivalent, Push, JwtStage, WantedClaims;
    hide AccountStatus.Coupled, AccountStatus.Ready;
    var want := WantedClaims(c, k, s, seed, x);
    var out := AccountJwtStage(c, k, want, x);
    if out.result.Ok? {
      JwtStageMeaning(c.secrets, OwnerOf(k, c.accounts[k]), c.accounts[k].spec.jwtSecretName, want, x.jwt);
      if out.writes == [] {
        PushMeaning(c, k, s, out.result.value, want, x);
      }
    }
  }

  /******* Pushed JWTs are sound *******/

  // The secret holds a seed with this public key.
  predicate HoldsKeyPair(store: Store, key: Key, publicKey: string) {
    && key in store && SeedKey in store[key].data && store[key].data[SeedKey].SeedBlob?
    && PublicKey(store[key].data[SeedKey].seed) == publicKey
  }

  // The Operator is the issuer itself or the owner that the issuing SigningKey's status records.
  predicate OperatorBehind(issuer: KeyPairable, key: Key) {
    match issuer
    case IssuerOperator(k, _) => k == key
    case IssuerSigningKey(_, sk) =>
      && sk.status.ownerRef.Some? && sk.status.ownerRef.value.kind == KindOperator
      && sk.status.ownerRef.value.ns == key.ns && sk.status.ownerRef.value.name == key.name
    case IssuerAccount(_, _) => false
  }

  // The Operator's two selectors allow the Account.
  predicate AdmittedBy(c: Cluster, k: Key, key: Key)
    requires k in c.accounts
  {
    && key in c.operators && k.ns in c.namespaces
    && NamespaceAllowed(key.ns, c.operators[key].spec.accountsNamespaceSelector, k.ns, c.namespaces[k.ns])
    && LabelsAllowed(c.operators[key].spec.accountsSelector, c.accounts[k].labels)
  }

  // The operator stage finds exactly the Operator behind the issuer, if that admits the Account.
  lemma OperatorFoundIff(c: Cluster, k: Key, issuer: KeyPairable, ownerOk: bool, namespaceOk: bool, key: Key)
    requires k in c.accounts && IssuerIs(c, c.accounts[k].spec.issuer, k.ns, issuer)
    requires issuer.IssuerSigningKey? ==> issuer.signingKey.status.Coupled()
    ensures FindOperator(c, k, issuer, ownerOk, namespaceOk) == Ok(key) <==>
              namespaceOk && (issuer.IssuerOperator? || ownerOk) && OperatorBehind(issuer, key) && AdmittedBy(c, k, key)
  {
    hide NamespaceAllowed, LabelsAllowed;
    if issuer.IssuerSigningKey? { KeyOwnerIff(c, issuer.signingKey, ownerOk); }
    var r := ResolveOperator(c, issuer, ownerOk);
    if r.Ok? {
      var op := r.value.1;
      AdmittedIff(c, r.value.0.ns, op.spec.accountsNamespaceSelector, op.spec.accountsSelector, k.ns, c.accounts[k].labels, namespaceOk);
    }
    hide ValidateSelectors, ResolveSigningKeyOwner;
  }

  // A SigningKey that counts for the Account: in its namespace, admitted by its selector, with owner
  // and pair, and owned by this very object.
  predicate KeyServes(c: Cluster, k: Key, sk: SigningKey)
    requires k in c.accounts
  {
    && sk in c.signingKeys && sk.key.ns == k.ns && LabelsAllowed(c.accounts[k].spec.signingKeysSelector, sk.labels)
    && IsTrue(sk.status.owner) && IsTrue(sk.status.seed)
    && sk.status.ownerRef.Some? && sk.status.ownerRef.value.uid == c.accounts[k].uid
    && sk.status.keyPair.Some?
  }

  // Whatever list the update starts from, it ends with the name and pair of exactly those.
  lemma AccountKeysIff(c: Cluster, k: Key, current: seq<SigningKeyEntry>, keys: seq<SigningKeyEntry>, e: SigningKeyEntry)
    requires Coupled(c) && KeysDistinct(c) && k in c.accounts && AllCoupled(Candidates(c, k))
    requires IsNext(keys, c.accounts[k].uid, current, Candidates(c, k))
    ensures e in keys <==> exists sk :: KeyServes(c, k, sk) && e.name == sk.key.name && Some(e.keyPair) == sk.status.keyPair
  {
    hide InOrderOf, DistinctNames, Matches, FreshKeys, ListKeys;
    var uid, sks, items := c.accounts[k].uid, ListKeys(c.signingKeys, k.ns, c.accounts[k].spec.signingKeysSelector), Candidates(c, k);
    ListKeysMeaning(c.signingKeys, k.ns, c.accounts[k].spec.signingKeysSelector);
    if e in keys {
      var i := FreshKeysSource(uid, items, e.name);
      assert sks[i] in sks && KeyServes(c, k, sks[i]);
    }
    forall sk | KeyServes(c, k, sk) && e.name == sk.key.name && Some(e.keyPair) == sk.status.keyPair ensures e in keys {
      var i :| 0 <= i < |sks| && sks[i] == sk;
      EligibleIsListed(uid, items, i);
      var j := FreshKeysSource(uid, items, e.name);
      assert sks[j] in sks && sks[j].key == sk.key;
      assert FreshKeys(uid, items)[e.name] == e;
    }
  }

  // A push goes out only for an Account that the Operator in its status admits.
  predicate AdmittedPush(c: Cluster, k: Key, status: AccountStatus, callOk: bool)
    requires k in c.accounts
  {
    var issuer := ResolveIssuer(c, c.accounts[k].spec.issuer, k.ns, callOk);
    && issuer.Ok? && status.operatorRef.Some?
    && OperatorBehind(issuer.value, status.operatorRef.value) && AdmittedBy(c, k, status.operatorRef.value)
  }

  // Signed by the seed of the issuer that the Account's spec names: an operator seed, with the public
  // key that the issuer's status publishes.
  predicate SignedByIssuer(c: Cluster, k: Key, claims: Claims, callOk: bool)
    requires k in c.accounts
  {
    var issuer := ResolveIssuer(c, c.accounts[k].spec.issuer, k.ns, callOk);
    && issuer.Ok? && IssuerIs(c, c.accounts[k].spec.issuer, k.ns, issuer.value) && IssuerReady(issuer.value)
    && issuer.value.GetKeyPair().Some?
    && var kp := issuer.value.GetKeyPair().value;
       var key := Key(issuer.value.key.ns, kp.seedSecretName);
    && claims.data.issuer == kp.publicKey
    && HoldsKeyPair(c.secrets, key, kp.publicKey)
    && c.secrets[key].data[SeedKey].seed.prefix == PrefixOperator
  }

  // The JWT names this status: its key pair as subject, its signing keys as a set; and the object.
  predicate Names(claims: Claims, status: AccountStatus, name: string, spec: AccountSpec) {
    && claims.AccountClaims? && claims.data.name == name && claims.config == spec.config
    && status.keyPair.Some? && claims.data.subject == status.keyPair.value.publicKey
    && claims.signingKeys == PublicKeysOf(status.signingKeys)
  }

  predicate SoundPush(c: Cluster, k: Key, status: AccountStatus, jwt: Jwt, x: AccountOracle)
    requires k in c.accounts
  {
    && StoredJwt(c, k, c.secrets, jwt)
    && jwt.Signed? && Names(jwt.claims, status, k.name, c.accounts[k].spec)
    && HoldsKeyPair(c.secrets, SeedSecretKey(c, k), jwt.claims.data.subject)
    && SignedByIssuer(c, k, jwt.claims, x.issuerOk) && AdmittedPush(c, k, status, x.issuerOk)
    && AccountFinalizer in c.accounts[k].finalizers && !c.accounts[k].deleting
  }

  lemma WantedIsSound(c: Cluster, k: Key, s: AccountStatus, x: AccountOracle, s': AccountStatus, seed: Seed)
    requires Coupled(c) && k in c.accounts
    requires SetToSign(c, k, s, x, s', seed)
    ensures Names(WantedClaims(c, k, s', seed, x), s', k.name, c.accounts[k].spec)
    ensures AdmittedPush(c, k, s', x.issuerOk)
    ensures HoldsKeyPair(c.secrets, SeedSecretKey(c, k), s'.keyPair.value.publicKey)
    ensures SignedByIssuer(c, k, WantedClaims(c, k, s', seed, x), x.issuerOk)
  {
    hide SeedStage, FindOperator, AdmittedBy, OperatorBehind, IssuerReady, ResolveIssuer, LoadAccountIssuerSeed, Coupled;
    SeedStageMeaning(c.secrets, OwnerOf(k, c.accounts[k]), c.accounts[k].spec.seedSecretName, PrefixAccount, true, x.seed);
    var issuer := ResolveIssuer(c, c.accounts[k].spec.issuer, k.ns, x.issuerOk).value;
    IssuerResolvesIff(c, c.accounts[k].spec.issuer, k.ns, x.issuerOk);
    IssuerOfKeyCoupled(c, c.accounts[k].spec.issuer, k.ns, x.issuerOk);
    OperatorFoundIff(c, k, issuer, x.ownerOk, x.namespaceOk, s'.operatorRef.value);
    IssuerSeedLoadsIff(c, issuer, PrefixOperator, x.issuerSeedOk, seed);
    hide IssuerIs;
  }

  // For every outcome of every call: Pushed means Ready, a failure means not Ready, and whatever is
  // sent to NATS is sound.
  predicate IssuesWell(c: Cluster, k: Key, p: Plan, x: AccountOracle)
    requires k in c.accounts
  {
    && p.status.Coupled()
    && (p.exit == Pushed ==> p.status.Ready() && p.nats.PushSent?)
    && (FailureExit(p.exit) ==> !p.status.Ready())
    && (p.nats.PushSent? ==> p.store == c.secrets && SoundPush(c, k, p.status, p.nats.jwt, x))
    && (p.nats.PushSent? && p.exit != Pushed ==> !IsTrue(p.status.pushed))
    && !p.nats.Revoked? && p.exit != Finalized
    && p.finalizers == c.accounts[k].finalizers
  }

  lemma IssueMeaning(c: Cluster, k: Key, s: AccountStatus, x: AccountOracle)
    requires Coupled(c) && k in c.accounts && s.Coupled()
    requires AccountFinalizer in c.accounts[k].finalizers && !c.accounts[k].deleting
    ensures IssuesWell(c, k, Issue(c, k, s, x), x)
    ensures Issue(c, k, s, x).exit == OperatorFailure ==> Unresolved(s, Issue(c, k, s, x).status)
    ensures var p := Issue(c, k, s, x); Unmarked(p.exit) ==> (p.status.Ready() <==> RestTrue(p.exit, s))
  {
    hide RestTrue, PrepareSeed, StoreJWT, StoredJwt, SignedByIssuer, HoldsKeyPair, WantedClaims, SetToSign, AdmittedPush;
    PrepareMeaning(c, k, s, x);
    match PrepareSeed(c, k, s, x)
    case Halt(p) =>
    case Go(s', seed) =>
      var p := StoreJWT(c, k, s', seed, x);
      StoreJWTMeaning(c, k, s', seed, x);
      WantedIsSound(c, k, s, x, s', seed);
      if p.nats.PushSent? {
        AdmittedByRef(c, k, s', p.status, x.issuerOk);
        EquivalentSaysTheSame(p.nats.jwt.claims, WantedClaims(c, k, s', seed, x));
        SignedBySameIssuer(c, k, p.nats.jwt.claims, WantedClaims(c, k, s', seed, x), x.issuerOk);
      }
      PushedIsReady(c, k, s, x, s', seed);
  }

  lemma AdmittedByRef(c: Cluster, k: Key, s: AccountStatus, t: AccountStatus, callOk: bool)
    requires k in c.accounts && AdmittedPush(c, k, s, callOk) && t.operatorRef == s.operatorRef
    ensures AdmittedPush(c, k, t, callOk)
  {
    hide ResolveIssuer, AdmittedBy, OperatorBehind;
  }

  lemma SignedBySameIssuer(c: Cluster, k: Key, a: Claims, b: Claims, callOk: bool)
    requires k in c.accounts && a.data.issuer == b.data.issuer && SignedByIssuer(c, k, b, callOk)
    ensures SignedByIssuer(c, k, a, callOk)
  {
    hide ResolveIssuer, HoldsKeyPair, IssuerIs, IssuerReady;
  }

  lemma PushedIsReady(c: Cluster, k: Key, s: AccountStatus, x: AccountOracle, s': AccountStatus, seed: Seed)
    requires Coupled(c) && k in c.accounts && SetToSign(c, k, s, x, s', seed)
    ensures s'.MarkJWTSecretReady().MarkJWTPushed().Ready()
  {
    hide FindOperator, AccountSeedStage, ResolveIssuer, LoadAccountIssuerSeed, LabelOf;
  }

  /******* Finalization *******/

  lemma FinalizeMeaning(c: Cluster, k: Key, s: AccountStatus, x: AccountOracle)
    requires k in c.accounts && s.Coupled()
    ensures var p := Finalize(c, k, s, x);
            && (p.status.Coupled() || p.status == c.accounts[k].status)
            && p.store == c.secrets
            && p.exit != Pushed && !FailureExit(p.exit) && !Unmarked(p.exit) && !p.nats.PushSent?
            && (p.nats.Revoked? ==> s.keyPair.Some? && p.nats.subject == s.keyPair.value.publicKey)
            && (p.exit == Finalized ==> p.finalizers == c.accounts[k].finalizers - {AccountFinalizer})
            && (p.exit != Finalized ==> p.finalizers == c.accounts[k].finalizers)
  {
  }

  // finalizeAccount reads two fields after checking two conditions that do not imply them. It
  // panics exactly when a field is missing where the checks let it through.
  lemma FinalizePanicsIff(c: Cluster, s: AccountStatus, x: AccountOracle)
    ensures FinalizeAccount(c, s, x) == NilPointer <==>
              && IsTrue(s.jwt) && IsTrue(s.pushed)
              && (s.operatorRef.None?
                  || (s.keyPair.None? && ReachesDelete(c, s.operatorRef.value, x)))
  {
  }

  // The Operator and its seed can be read.
  predicate OperatorReadable(c: Cluster, op: Key, x: AccountOracle) {
    && x.operatorOk && op in c.operators && c.operators[op].status.keyPair.Some?
    && var key := Key(op.ns, c.operators[op].status.keyPair.value.seedSecretName);
    && x.operatorSeedOk && key in c.secrets && SeedKey in c.secrets[key].data && c.secrets[key].data[SeedKey].SeedBlob?
  }

  // Every call before the removal succeeds.
  predicate ReachesDelete(c: Cluster, op: Key, x: AccountOracle) {
    OperatorReadable(c, op, x) && (x.revoke.RevokeFails? || x.revoke.RevokeSucceeds?)
  }

  // With the two fields that the conditions OperatorResolved and SeedSecretReady stand for, it never does.
  lemma FinalizeSafe(c: Cluster, s: AccountStatus, x: AccountOracle)
    requires s.Coupled() && IsTrue(s.operator) && IsTrue(s.seed)
    ensures FinalizeAccount(c, s, x) != NilPointer
  {
  }

  // A deletion removes the JWT exactly when both conditions and both fields are there, the Operator
  // and its seed can be read, and the removal succeeds.
  lemma RevokedIff(c: Cluster, k: Key, x: AccountOracle)
    requires Coupled(c) && k in c.accounts && c.accounts[k].deleting && AccountFinalizer in c.accounts[k].finalizers && x.fetchOk
    ensures var s, nats := c.accounts[k].status, Reconcile(c, k, x).nats;
            && (nats.Revoked? <==>
                  && IsTrue(s.jwt) && IsTrue(s.pushed) && s.operatorRef.Some? && s.keyPair.Some?
                  && OperatorReadable(c, s.operatorRef.value, x) && x.revoke.RevokeSucceeds?)
            && (nats.Revoked? ==> nats.subject == s.keyPair.value.publicKey)
  {
    hide Issue, Coupled, AccountStatus.Coupled, AccountStatus.Ready;
  }

  // finalizeAccount lets the Account go without a removal: a condition is not True, or the Operator or
  // its system account is gone.
  predicate SkipsRemoval(c: Cluster, s: AccountStatus, x: AccountOracle) {
    || !IsTrue(s.jwt) || !IsTrue(s.pushed)
    || (&& s.operatorRef.Some? && x.operatorOk
        && (s.operatorRef.value !in c.operators || (OperatorReadable(c, s.operatorRef.value, x) && x.revoke.SystemMissing?)))
  }

  lemma LeftBehindIff(c: Cluster, k: Key, x: AccountOracle)
    requires Coupled(c) && k in c.accounts && c.accounts[k].deleting && AccountFinalizer in c.accounts[k].finalizers && x.fetchOk
    ensures var st := Reconcile(c, k, x);
            st.exit == Finalized && st.nats == NoCall <==> x.updateOk && SkipsRemoval(c, c.accounts[k].status, x)
  {
    hide Issue, Coupled, AccountStatus.Coupled, AccountStatus.Ready;
  }

  /******* One step *******/

  // The step as a whole: statuses stay coupled; Ready follows the exit; what is sent is sound.
  predicate StepsWell(c: Cluster, k: Key, st: Step, x: AccountOracle) {
    && st.status.Coupled()
    && (st.exit == Pushed ==> st.status.Ready() && st.nats.PushSent?)
    && (FailureExit(st.exit) ==> !st.status.Ready())
    && (Unmarked(st.exit) ==> k in c.accounts && (st.status.Ready() <==> RestTrue(st.exit, c.accounts[k].status)))
    && (st.nats.PushSent? ==> k in c.accounts && st.c.secrets == c.secrets && SoundPush(c, k, st.status, st.nats.jwt, x))
    && (st.nats.PushSent? && st.exit != Pushed ==> !IsTrue(st.status.pushed))
    && (st.nats.Revoked? ==> k in c.accounts && c.accounts[k].deleting)
  }

  // What a step leaves alone: specs, other Accounts, and every other kind of object.
  predicate Frames(c: Cluster, k: Key, c': Cluster) {
    && c' == c.(accounts := c'.accounts, secrets := c'.secrets)
    && (k in c.accounts && k in c'.accounts ==>
          c'.accounts[k] == c.accounts[k].(labels := c'.accounts[k].labels, finalizers := c'.accounts[k].finalizers,
                                           status := c'.accounts[k].status))
    && c'.accounts - {k} == c.accounts - {k}
    && (k in c'.accounts ==> k in c.accounts)
  }

  lemma StagesMeaning(c: Cluster, k: Key, s: AccountStatus, x: AccountOracle)
    requires Coupled(c) && k in c.accounts && s.Coupled()
    ensures var p := Stages(c, k, s, x);
            && p.status.Coupled()
            && (p.exit == Pushed ==> p.status.Ready() && p.nats.PushSent?)
            && (FailureExit(p.exit) ==> !p.status.Ready())
            && (p.nats.PushSent? ==> p.store == c.secrets && SoundPush(c, k, p.status, p.nats.jwt, x))
            && (p.nats.PushSent? && p.exit != Pushed ==> !IsTrue(p.status.pushed))
            && (p.nats.Revoked? ==> c.accounts[k].deleting)
            && (p.exit == Finalized ==> c.accounts[k].deleting)
            && (Unmarked(p.exit) ==> (p.status.Ready() <==> RestTrue(p.exit, s)))
            && (AccountFinalizer in c.accounts[k].finalizers && p.exit != Finalized ==> AccountFinalizer in p.finalizers)
  {
    hide Issue, Finalize, SoundPush, AccountStatus.Coupled, AccountStatus.Ready, RestTrue;
    UnmarkedKeepsReady(s, KeyPair("", ""), k);
    if c.accounts[k].deleting {
      FinalizeMeaning(c, k, s, x);
    } else if AccountFinalizer in c.accounts[k].finalizers {
      IssueMeaning(c, k, s, x);
    }
  }

  lemma StepMeaning(c: Cluster, k: Key, x: AccountOracle)
    requires Coupled(c)
    ensures StepsWell(c, k, Reconcile(c, k, x), x)
  {
    assert NewAccountStatus.Coupled();
    hide Stages, SoundPush, AccountStatus.Coupled, AccountStatus.Ready, RestTrue;
    if x.fetchOk && k in c.accounts {
      RestOfInitial(c.accounts[k].status);
      StagesMeaning(c, k, c.accounts[k].status.InitializeConditions(), x);
    }
  }

  lemma StepFrames(c: Cluster, k: Key, x: AccountOracle)
    requires Coupled(c)
    ensures Frames(c, k, Reconcile(c, k, x).c)
    ensures Coupled(Reconcile(c, k, x).c)
  {
    hide Stages, AccountStatus.Coupled, AccountStatus.Ready;
    if x.fetchOk && k in c.accounts {
      StagesMeaning(c, k, c.accounts[k].status.InitializeConditions(), x);
    }
  }

  /******* The panic is reachable *******/

  // A pushed Account whose Operator then cannot be resolved loses its OperatorRef but keeps both
  // conditions. Deleting it panics, however the remaining calls turn out.
  lemma DeletedAfterOperatorFailurePanics(c: Cluster, k: Key, x: AccountOracle, y: AccountOracle)
    requires Coupled(c) && k in c.accounts && !c.accounts[k].deleting
    requires IsTrue(c.accounts[k].status.jwt) && IsTrue(c.accounts[k].status.pushed)
    requires Reconcile(c, k, x).exit == OperatorFailure && x.status == StatusStored && y.fetchOk
    ensures k in Reconcile(c, k, x).c.accounts
    ensures Coupled(Deleting(Reconcile(c, k, x).c, k))
    ensures Reconcile(Deleting(Reconcile(c, k, x).c, k), k, y).exit == Panicked
  {
    StepFrames(c, k, x);
    OperatorFailureStatus(c, k, x);
    PanicsOnDeletion(Reconcile(c, k, x).c, k, y);
  }

  // Somebody asks for the deletion of the Account.
  function Deleting(c: Cluster, k: Key): Cluster
    requires k in c.accounts
  {
    c.(accounts := c.accounts[k := c.accounts[k].(deleting := true)])
  }

  lemma OperatorFailureStatus(c: Cluster, k: Key, x: AccountOracle)
    requires Coupled(c) && k in c.accounts && !c.accounts[k].deleting
    requires IsTrue(c.accounts[k].status.jwt) && IsTrue(c.accounts[k].status.pushed)
    requires Reconcile(c, k, x).exit == OperatorFailure && x.status == StatusStored
    ensures k in Reconcile(c, k, x).c.accounts
    ensures var acc := Reconcile(c, k, x).c.accounts[k];
            && AccountFinalizer in acc.finalizers && acc.status.operatorRef == None
            && IsTrue(acc.status.jwt) && IsTrue(acc.status.pushed)
  {
    hide Issue, SoundPush, AccountStatus.Coupled, AccountStatus.Ready;
    var s := c.accounts[k].status.InitializeConditions();
    assert AccountFinalizer in c.accounts[k].finalizers;
    IssueMeaning(c, k, s, x);
  }

  lemma PanicsOnDeletion(c: Cluster, k: Key, y: AccountOracle)
    requires Coupled(c) && k in c.accounts && y.fetchOk && AccountFinalizer in c.accounts[k].finalizers
    requires c.accounts[k].status.operatorRef == None && IsTrue(c.accounts[k].status.jwt) && IsTrue(c.accounts[k].status.pushed)
    ensures Coupled(Deleting(c, k)) && Reconcile(Deleting(c, k), k, y).exit == Panicked
  {
    hide Issue, AccountStatus.Coupled, AccountStatus.Ready;
    var c' := Deleting(c, k);
    assert forall q :: q in c'.accounts ==> c'.accounts[q].status == c.accounts[q].status;
    FinalizePanicsIff(c', c'.accounts[k].status.InitializeConditions(), y);
    hide FinalizeAccount;
  }

  // The other dereference: a pushed Account whose seed secret could not be read loses its key pair.
  // Deleting it panics as soon as the removal is reached.
  lemma DeletedAfterSeedFailurePanics(c: Cluster, k: Key, x: AccountOracle, y: AccountOracle)
    requires Coupled(c) && k in c.accounts && !c.accounts[k].deleting && AccountFinalizer in c.accounts[k].finalizers
    requires IsTrue(c.accounts[k].status.jwt) && IsTrue(c.accounts[k].status.pushed) && c.accounts[k].status.operatorRef.Some?
    requires AccountSeedStage(c, k, x).SeedFailed? && x.fetchOk && x.status == StatusStored
    requires y.fetchOk && ReachesDelete(c, c.accounts[k].status.operatorRef.value, y)
    ensures k in Reconcile(c, k, x).c.accounts && Coupled(Deleting(Reconcile(c, k, x).c, k))
    ensures Reconcile(Deleting(Reconcile(c, k, x).c, k), k, y).exit == Panicked
  {
    hide Coupled, Frames, AccountSeedStage, FinalizeAccount, AccountStatus.Coupled, AccountStatus.Ready;
    StepFrames(c, k, x);
    SeedFailureStatus(c, k, x);
    var c1 := Reconcile(c, k, x).c;
    DeletingCoupled(c1, k);
    var c2 := Deleting(c1, k);
    hide Reconcile;
    FinalizePanicsIff(c2, c2.accounts[k].status.InitializeConditions(), y);
    PanickedExit(c2, k, y);
  }

  lemma SeedFailureStatus(c: Cluster, k: Key, x: AccountOracle)
    requires Coupled(c) && k in c.accounts && !c.accounts[k].deleting && AccountFinalizer in c.accounts[k].finalizers
    requires AccountSeedStage(c, k, x).SeedFailed? && x.fetchOk && x.status == StatusStored
    ensures var st, s := Reconcile(c, k, x), c.accounts[k].status;
            && k in st.c.accounts && AccountFinalizer in st.c.accounts[k].finalizers
            && st.c.accounts[k].status.keyPair == None && st.c.accounts[k].status.operatorRef == s.operatorRef
            && (IsTrue(s.jwt) ==> IsTrue(st.c.accounts[k].status.jwt)) && (IsTrue(s.pushed) ==> IsTrue(st.c.accounts[k].status.pushed))
            && st.c.operators == c.operators && st.c.secrets == c.secrets
  {
    hide Coupled, AccountSeedStage, PrepareIssuer, StoreJWT, Finalize, Verdict, AccountStatus.Coupled, AccountStatus.Ready;
  }

  lemma PanickedExit(c: Cluster, k: Key, x: AccountOracle)
    requires Coupled(c) && k in c.accounts && c.accounts[k].deleting && AccountFinalizer in c.accounts[k].finalizers && x.fetchOk
    requires FinalizeAccount(c, c.accounts[k].status.InitializeConditions(), x) == NilPointer
    ensures Reconcile(c, k, x).exit == Panicked
  {
    hide Coupled, FinalizeAccount, Issue, AccountStatus.Coupled, AccountStatus.Ready;
  }

  // A pushed Account that is pointed at an issuer of the wrong kind, here itself.
  const MisledKey: Key := Key("ns", "acc")
  const MisledSeed: Seed := Seed(PrefixAccount, "k")

  function MisledAccount(): Account {
    Account("uid", map[], {AccountFinalizer}, false,
            AccountSpec(IssuerRef(KindAccount, "", "acc"), "jwt", "seed", None, None, None, ""),
            AccountStatus(Up, Up, Up, Counted(0), Up, Up, Some(KeyPair(PublicKey(MisledSeed), "seed")), [], Some(Key("ns", "op"))))
  }

  function MisledCluster(secret: Secret): Cluster {
    Cluster(map[], map[], map[MisledKey := MisledAccount()], map[], [], map[Key("ns", "seed") := secret])
  }

  lemma PanicIsReachable(x: AccountOracle, y: AccountOracle) returns (c: Cluster)
    requires x.fetchOk && x.seed.getOk && x.issuerOk && x.status == StatusStored && y.fetchOk
    ensures Coupled(c) && MisledKey in c.accounts && c.accounts[MisledKey].status.Ready()
    ensures Reconcile(c, MisledKey, x).exit == OperatorFailure && MisledKey in Reconcile(c, MisledKey, x).c.accounts
    ensures Coupled(Deleting(Reconcile(c, MisledKey, x).c, MisledKey))
    ensures Reconcile(Deleting(Reconcile(c, MisledKey, x).c, MisledKey), MisledKey, y).exit == Panicked
  {
    var o := OwnerOf(MisledKey, MisledAccount());
    var secret := BuildSeedSecret(EmptySecret, o, MisledSeed, true).value;
    RebuildSeedSecret(EmptySecret, o, MisledSeed, true);
    c := MisledCluster(secret);
    MisledFails(c, secret, x);
    DeletedAfterOperatorFailurePanics(c, MisledKey, x, y);
  }

  lemma MisledFails(c: Cluster, secret: Secret, x: AccountOracle)
    requires c == MisledCluster(secret) && SeedBuilt(c.secrets, OwnerOf(MisledKey, MisledAccount()), "seed", true)
    requires x.fetchOk && x.seed.getOk && x.issuerOk
    ensures Coupled(c) && Reconcile(c, MisledKey, x).exit == OperatorFailure
  {
    SeedStageSettled(c.secrets, OwnerOf(MisledKey, MisledAccount()), "seed", PrefixAccount, true, x.seed);
    assert ResolveIssuer(c, c.accounts[MisledKey].spec.issuer, "ns", true) == Ok(IssuerAccount(MisledKey, MisledAccount()));
    hide SeedStage, SeedBuilt, PrepareLabels, ResolveIssuer, StoreJWT, Verdict;
  }

  /******* A JWT that is left behind *******/

  // The request was sent, but the condition on the server does not say so: the push reported an
  // error, or the status could not be stored.
  predicate Unrecorded(c: Cluster, k: Key, x: AccountOracle)
    requires Coupled(c) && k in c.accounts
  {
    && Reconcile(c, k, x).nats.PushSent?
    && if x.status == StatusStored then Reconcile(c, k, x).exit != Pushed else !IsTrue(c.accounts[k].status.pushed)
  }

  // A deletion that follows lets the Account go and leaves the JWT.
  lemma SentThenLeftBehind(c: Cluster, k: Key, x: AccountOracle, y: AccountOracle)
    requires Coupled(c) && k in c.accounts && Unrecorded(c, k, x) && y.fetchOk && y.updateOk
    ensures k in Reconcile(c, k, x).c.accounts && Coupled(Deleting(Reconcile(c, k, x).c, k))
    ensures var st := Reconcile(Deleting(Reconcile(c, k, x).c, k), k, y);
            st.exit == Finalized && st.nats == NoCall
  {
    hide Reconcile, Coupled, Frames, SkipsRemoval, AccountStatus.Coupled, AccountStatus.Ready;
    StepFrames(c, k, x);
    UnrecordedStatus(c, k, x);
    var c1 := Reconcile(c, k, x).c;
    DeletingCoupled(c1, k);
    LeftBehindIff(Deleting(c1, k), k, y);
    SkipsUnpushed(Deleting(c1, k), Deleting(c1, k).accounts[k].status, y);
  }

  lemma SkipsUnpushed(c: Cluster, s: AccountStatus, x: AccountOracle)
    requires !IsTrue(s.pushed)
    ensures SkipsRemoval(c, s, x)
  {
  }

  lemma DeletingCoupled(c: Cluster, k: Key)
    requires Coupled(c) && k in c.accounts
    ensures Coupled(Deleting(c, k))
  {
    var c' := Deleting(c, k);
    assert forall q :: q in c'.accounts ==> c'.accounts[q].status == c.accounts[q].status;
  }

  lemma UnrecordedStatus(c: Cluster, k: Key, x: AccountOracle)
    requires Coupled(c) && k in c.accounts && Unrecorded(c, k, x)
    ensures k in Reconcile(c, k, x).c.accounts
    ensures !IsTrue(Reconcile(c, k, x).c.accounts[k].status.pushed)
    ensures AccountFinalizer in Reconcile(c, k, x).c.accounts[k].finalizers
  {
    StepMeaning(c, k, x);
    hide Issue, Finalize, StoredJwt, SignedByIssuer, HoldsKeyPair, Names, AccountStatus.Coupled, AccountStatus.Ready;
    var s := c.accounts[k].status.InitializeConditions();
    assert AccountFinalizer in c.accounts[k].finalizers && !c.accounts[k].deleting;
    IssueMeaning(c, k, s, x);
  }

  /******* Seeds *******/

  // A step leaves every guarded seed as it is, and the Account's own seed even while unguarded.
  lemma IssueKeepsSeeds(c: Cluster, k: Key, s: AccountStatus, x: AccountOracle, q: Key, seed: Seed)
    requires Coupled(c) && k in c.accounts && s.Coupled()
    ensures GuardedSeed(c.secrets, q, seed) ==> GuardedSeed(Issue(c, k, s, x).store, q, seed)
    ensures q == SeedSecretKey(c, k) && HoldsSeed(c.secrets, q, seed) ==> HoldsSeed(Issue(c, k, s, x).store, q, seed)
  {
    hide PrepareSeed, StoreJWT, GuardedSeed, HoldsSeed, AfterSeedStage, SetToSign, AccountSeedStage;
    hide AccountStatus.Coupled, AccountStatus.Ready;
    PrepareMeaning(c, k, s, x);
    match PrepareSeed(c, k, s, x)
    case Halt(p) => SeedStageStoreKeeps(c, k, x, p.store, q, seed);
    case Go(s', signer) =>
      if q == SeedSecretKey(c, k) && HoldsSeed(c.secrets, q, seed) {
        SettledSeedIsGuarded(c, k, s, x, s', signer, seed);
      }
      if GuardedSeed(c.secrets, q, seed) {
        StoreJWTKeepsSeeds(c, k, s', signer, x, q, seed);
        GuardedHolds(StoreJWT(c, k, s', signer, x).store, q, seed);
      }
  }

  lemma GuardedHolds(store: Store, q: Key, seed: Seed)
    requires GuardedSeed(store, q, seed)
    ensures HoldsSeed(store, q, seed)
  {
  }

  lemma SeedStageStoreKeeps(c: Cluster, k: Key, x: AccountOracle, store: Store, q: Key, seed: Seed)
    requires k in c.accounts && AfterSeedStage(c, k, x, store)
    ensures GuardedSeed(c.secrets, q, seed) ==> GuardedSeed(store, q, seed)
    ensures HoldsSeed(c.secrets, q, seed) ==> HoldsSeed(store, q, seed)
  {
    hide GuardedSeed, HoldsSeed, SeedStage;
    if store != c.secrets {
      SeedStageKeepsSeeds(c.secrets, OwnerOf(k, c.accounts[k]), c.accounts[k].spec.seedSecretName, PrefixAccount, true, x.seed, q, seed);
    }
  }

  lemma SettledSeedIsGuarded(c: Cluster, k: Key, s: AccountStatus, x: AccountOracle, s': AccountStatus, signer: Seed, seed: Seed)
    requires Coupled(c) && k in c.accounts && HoldsSeed(c.secrets, SeedSecretKey(c, k), seed)
    requires SetToSign(c, k, s, x, s', signer)
    ensures GuardedSeed(c.secrets, SeedSecretKey(c, k), seed)
  {
    hide FindOperator, ResolveIssuer, LoadAccountIssuerSeed, SeedStage;
    var o, name := OwnerOf(k, c.accounts[k]), c.accounts[k].spec.seedSecretName;
    SeedStageMeaning(c.secrets, o, name, PrefixAccount, true, x.seed);
    BuiltSeedIsGuarded(c.secrets, o, name);
  }

  lemma StoreJWTKeepsSeeds(c: Cluster, k: Key, s: AccountStatus, signer: Seed, x: AccountOracle, q: Key, seed: Seed)
    requires k in c.accounts && GuardedSeed(c.secrets, q, seed)
    ensures GuardedSeed(StoreJWT(c, k, s, signer, x).store, q, seed)
  {
    hide Verdict, MarkJWT, WantedClaims, GuardedSeed, JwtStage;
    var want := WantedClaims(c, k, s, signer, x);
    JwtStageKeepsSeeds(c.secrets, OwnerOf(k, c.accounts[k]), c.accounts[k].spec.jwtSecretName, want, Signed(want), x.jwt, q, seed);
  }

  lemma StepKeepsSeeds(c: Cluster, k: Key, x: AccountOracle, q: Key, seed: Seed)
    requires Coupled(c)
    ensures GuardedSeed(c.secrets, q, seed) ==> GuardedSeed(Reconcile(c, k, x).c.secrets, q, seed)
    ensures k in c.accounts && q == SeedSecretKey(c, k) && HoldsSeed(c.secrets, q, seed) ==>
              HoldsSeed(Reconcile(c, k, x).c.secrets, q, seed)
  {
    hide Issue, Finalize, GuardedSeed, HoldsSeed, AccountStatus.Coupled, AccountStatus.Ready;
    if x.fetchOk && k in c.accounts {
      var s := c.accounts[k].status.InitializeConditions();
      if c.accounts[k].deleting {
        FinalizeMeaning(c, k, s, x);
      } else {
        IssueKeepsSeeds(c, k, s, x, q, seed);
      }
    }
  }

  /******* Where the secrets of a step come from *******/

  // As they were, as the seed stage leaves them, or as the JWT stage does for some claims.
  ghost predicate StoreTraced(c: Cluster, k: Key, x: AccountOracle, store: Store)
    requires k in c.accounts
  {
    AfterSeedStage(c, k, x, store) || exists want: Claims :: store == AccountJwtStage(c, k, want, x).store
  }

  lemma StoreJWTTraced(c: Cluster, k: Key, s: AccountStatus, seed: Seed, x: AccountOracle)
    requires k in c.accounts
    ensures StoreTraced(c, k, x, StoreJWT(c, k, s, seed, x).store)
  {
    hide Verdict, MarkJWT, WantedClaims, AccountJwtStage, AccountSeedStage, AccountStatus.Coupled, AccountStatus.Ready;
    var out := AccountJwtStage(c, k, WantedClaims(c, k, s, seed, x), x);
    assert StoreTraced(c, k, x, out.store);
  }

  lemma StepTraced(c: Cluster, k: Key, x: AccountOracle)
    requires Coupled(c) && k in c.accounts
    ensures StoreTraced(c, k, x, Reconcile(c, k, x).c.secrets)
  {
    hide PrepareSeed, StoreJWT, Finalize, AccountSeedStage, AccountJwtStage, SetToSign, HaltsWell, AccountStatus.Coupled, AccountStatus.Ready;
    if x.fetchOk {
      var s := c.accounts[k].status.InitializeConditions();
      if c.accounts[k].deleting {
        FinalizeMeaning(c, k, s, x);
      } else {
        PrepareMeaning(c, k, s, x);
        match PrepareSeed(c, k, s, x)
        case Halt(_) =>
        case Go(s', seed) => StoreJWTTraced(c, k, s', seed, x);
      }
    }
  }
}
