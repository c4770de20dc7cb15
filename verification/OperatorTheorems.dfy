/**
 What every reconcile of an Operator keeps, for every combination of API outcomes.
 */
module OperatorTheorems {
  import opened Texts
  import opened Conditions
  import opened Lifecycles
  import opened Errors
  import opened Secrets
  import opened ClusterState
  import opened SecretStages
  import opened OperatorController

  // The failures that are marked. A failure to list the signing keys is not.
  predicate Stopped(e: OperatorExit) { e.SeedStopped? || e.SystemAccountStopped? || e.JWTStopped? }

  // on the condition of the stage that failed.
  predicate StopsAt(e: OperatorExit, s: OperatorStatus) {
    match e
    case SeedStopped => !IsTrue(s.seed)
    case SystemAccountStopped => !IsTrue(s.system)
    case JWTStopped => !IsTrue(s.jwt)
    case _ => true
  }

  lemma StoppedNotReady(e: OperatorExit, s: OperatorStatus)
    requires Stopped(e) && StopsAt(e, s)
    ensures !s.Ready()
  {
  }

  function OperatorJwtKey(c: Cluster, k: Key): Key
    requires k in c.operators
  {
    Key(k.ns, c.operators[k].spec.jwtSecretName)
  }

  function OperatorSeedKey(c: Cluster, k: Key): Key
    requires k in c.operators
  {
    Key(k.ns, c.operators[k].spec.seedSecretName)
  }

  // The stored JWT is issued by this seed to this object and status, naming its system account and keys.
  predicate SelfSigned(c: Cluster, k: Key, store: Store, s: OperatorStatus, seed: Seed)
    requires k in c.operators
  {
    var q := OperatorJwtKey(c, k);
    && q in store && JWTKey in store[q].data && store[q].data[JWTKey].JwtBlob? && store[q].data[JWTKey].jwt.Signed?
    && var claims := store[q].data[JWTKey].jwt.claims;
    && claims.OperatorClaims? && claims.data.issuer == PublicKey(seed)
    && claims.data.name == k.name && claims.config == c.operators[k].spec.config
    && s.keyPair.Some? && claims.data.subject == s.keyPair.value.publicKey
    && s.systemAccount.Some? && claims.systemAccount == s.systemAccount.value.publicKey
    && claims.signingKeyList == PublicKeyList(s.signingKeys)
  }

  lemma JWTStageMeaning(c: Cluster, k: Key, s: OperatorStatus, seed: Seed, x: OperatorOracle)
    requires k in c.operators && s.Coupled()
    ensures var p := OperatorJWTStage(c, k, s, seed, x);
            && p.status.Coupled()
            && (p.exit == JWTStopped || p.exit == Completed)
            && (p.exit == JWTStopped ==> !IsTrue(p.status.jwt))
            && p.status.systemAccount == s.systemAccount && p.status.keyPair == s.keyPair && p.status.signingKeys == s.signingKeys
            && (p.exit == Completed ==> p.status == s.MarkJWTSecretReady() && SelfSigned(c, k, p.store, s, seed))
  {
    hide Verdict, MarkOperatorJWT, JwtStage, OperatorStatus.Coupled, OperatorStatus.Ready;
    var want := OperatorClaimsOf(k.name, c.operators[k].spec, s, seed, x.iat, x.jti);
    if want.Some? {
      var o, name := OperatorOwner(k, c.operators[k]), c.operators[k].spec.jwtSecretName;
      var out := JwtStage(c.secrets, o, name, want.value, Signed(want.value), x.jwt);
      if out.result.Ok? {
        JwtStageMeaning(c.secrets, o, name, want.value, x.jwt);
        EquivalentSaysTheSame(out.store[OperatorJwtKey(c, k)].data[JWTKey].jwt.claims, want.value);
      }
    }
  }

  /******* Signing keys *******/

  // The list holds exactly the ready keys whose owner has the Operator's namespace and name.
  lemma {:induction false} OperatorKeysMeaning(k: Key, sks: seq<SigningKey>, e: SigningKeyEntry)
    requires forall sk :: sk in sks ==> sk.status.Coupled()
    ensures e in OperatorKeys(k, sks) <==>
              exists sk :: && sk in sks && IsTrue(sk.status.owner) && IsTrue(sk.status.seed)
                           && sk.status.ownerRef.value.ns == k.ns && sk.status.ownerRef.value.name == k.name
                           && e == SigningKeyEntry(sk.key.name, sk.status.keyPair.value)
  {
    if sks != [] {
      var init, last := sks[..|sks| - 1], sks[|sks| - 1];
      assert sks == init + [last];
      OperatorKeysMeaning(k, init, e);
    }
  }

  // A SigningKey that counts for the Operator: of its namespace, with owner and pair, the owner of its
  // namespace and name.
  predicate KeyServes(c: Cluster, k: Key, sk: SigningKey) {
    && sk in c.signingKeys && sk.key.ns == k.ns && IsTrue(sk.status.owner) && IsTrue(sk.status.seed)
    && sk.status.ownerRef.Some? && sk.status.ownerRef.value.ns == k.ns && sk.status.ownerRef.value.name == k.name
    && sk.status.keyPair.Some?
  }

  ghost predicate ListsServing(c: Cluster, k: Key, keys: seq<SigningKeyEntry>) {
    forall e :: e in keys <==> exists sk :: KeyServes(c, k, sk) && e.name == sk.key.name && Some(e.keyPair) == sk.status.keyPair
  }

  lemma ListedKeysServe(c: Cluster, k: Key)
    requires Coupled(c)
    ensures ListsServing(c, k, ListedKeys(c, k))
  {
    ListKeysMeaning(c.signingKeys, k.ns, None);
    var sks := ListKeys(c.signingKeys, k.ns, None);
    hide ListKeys, OperatorKeys;
    forall e ensures e in ListedKeys(c, k) <==> exists sk :: KeyServes(c, k, sk) && e.name == sk.key.name && Some(e.keyPair) == sk.status.keyPair {
      OperatorKeysMeaning(k, sks, e);
      if e in ListedKeys(c, k) {
        var sk :| && sk in sks && IsTrue(sk.status.owner) && IsTrue(sk.status.seed)
                  && sk.status.ownerRef.value.ns == k.ns && sk.status.ownerRef.value.name == k.name
                  && e == SigningKeyEntry(sk.key.name, sk.status.keyPair.value);
        assert KeyServes(c, k, sk);
      }
    }
  }

  /******* The system account *******/

  // The Account that the spec names, in the Operator's namespace, has a seed,
  predicate SystemAccountSeeded(c: Cluster, k: Key)
    requires k in c.operators
  {
    var key := Key(k.ns, c.operators[k].spec.systemAccount);
    key in c.accounts && IsTrue(c.accounts[key].status.seed)
  }

  // and the reference holds its name and the public key of its pair.
  predicate RefersToSystem(c: Cluster, k: Key, ref: Option<KeyPairRef>)
    requires k in c.operators
  {
    var key := Key(k.ns, c.operators[k].spec.systemAccount);
    && key in c.accounts && c.accounts[key].status.keyPair.Some? && ref.Some?
    && ref.value.key.ns == k.ns && ref.value.key.name == c.operators[k].spec.systemAccount
    && ref.value.publicKey == c.accounts[key].status.keyPair.value.publicKey
  }

  // The system account is found exactly when that Account has a seed; a failure goes to the runtime.
  lemma SystemAccountFoundIff(c: Cluster, k: Key, callOk: bool)
    requires Coupled(c) && k in c.operators
    ensures var r := FindSystemAccount(c, k, callOk);
            && (r.Ok? <==> callOk && SystemAccountSeeded(c, k))
            && (r.Ok? ==> RefersToSystem(c, k, Some(r.value)))
            && (r.Fail? ==>
                  && AsResult(r.error) == (Done, Some(r.error)) && Verdict(r.error).failure
                  && Verdict(r.error).reason == if callOk && Key(k.ns, c.operators[k].spec.systemAccount) in c.accounts then NotReady else NotFound)
  {
  }

  // The Operator's own stored seed has the pair that the status publishes and signs the stored JWT.
  ghost predicate CompletesWell(c: Cluster, k: Key, store: Store, s: OperatorStatus)
    requires k in c.operators
  {
    exists seed :: && HoldsSeed(c.secrets, OperatorSeedKey(c, k), seed)
                   && s.keyPair == Some(KeyPair(PublicKey(seed), c.operators[k].spec.seedSecretName))
                   && SelfSigned(c, k, store, s, seed)
  }

  ghost predicate PlansWell(c: Cluster, k: Key, s: OperatorStatus, p: OperatorPlan, x: OperatorOracle)
    requires k in c.operators
  {
    && p.status.Coupled()
    && (Stopped(p.exit) ==> StopsAt(p.exit, p.status))
    && (p.exit == KeysStopped ==> (p.status.Ready() <==> IsTrue(s.keys) && IsTrue(s.jwt)))
    && (p.exit == Completed ==> (p.status.Ready() <==> x.list == Listed || IsTrue(s.keys)))
    && (p.exit == Completed ==> CompletesWell(c, k, p.store, p.status))
    && (p.exit == Completed && x.list == Listed ==> ListsServing(c, k, p.status.signingKeys))
    && SystemWell(c, k, x, p.exit, p.status)
  }

  // What the status says of the system account, by exit.
  predicate SystemWell(c: Cluster, k: Key, x: OperatorOracle, exit: OperatorExit, s: OperatorStatus)
    requires k in c.operators
  {
    && (exit == SystemAccountStopped ==> !(x.accountOk && SystemAccountSeeded(c, k)) && s.systemAccount == None && s.system.Entry? && s.system.status == ConditionFalse)
    && (exit == KeysStopped || exit == JWTStopped || exit == Completed ==>
          x.accountOk && SystemAccountSeeded(c, k) && RefersToSystem(c, k, s.systemAccount))
  }

  lemma KeysStageMeaning(c: Cluster, k: Key, s: OperatorStatus, seed: Seed, x: OperatorOracle)
    requires Coupled(c) && k in c.operators && s.Coupled() && IsTrue(s.seed) && IsTrue(s.system)
    ensures var p := OperatorKeysStage(c, k, s, seed, x);
            && p.status.Coupled() && p.exit != SeedStopped && p.exit != SystemAccountStopped
            && p.status.systemAccount == s.systemAccount && p.status.keyPair == s.keyPair
            && (p.exit == JWTStopped ==> !IsTrue(p.status.jwt))
            && (p.exit == KeysStopped ==> (p.status.Ready() <==> IsTrue(s.keys) && IsTrue(s.jwt)))
            && (p.exit == Completed ==> (p.status.Ready() <==> x.list == Listed || IsTrue(s.keys)))
            && (p.exit == Completed ==> SelfSigned(c, k, p.store, p.status, seed))
            && (x.list == Listed ==> ListsServing(c, k, p.status.signingKeys))
  {
    ListedKeysServe(c, k);
    hide OperatorJWTStage, ListedKeys, ListsServing;
    if x.list == Listed {
      JWTStageMeaning(c, k, s.MarkSigningKeysUpdated(ListedKeys(c, k)), seed, x);
    } else {
      JWTStageMeaning(c, k, s, seed, x);
    }
  }

  lemma SeedOfStage(c: Cluster, k: Key, x: OperatorOracle)
    requires k in c.operators && OperatorSeedStage(c, k, x).SeedReady?
    ensures var out := OperatorSeedStage(c, k, x);
            && out.keyPair == KeyPair(PublicKey(out.seed), c.operators[k].spec.seedSecretName)
            && (!out.wrote ==> HoldsSeed(c.secrets, OperatorSeedKey(c, k), out.seed))
  {
    hide SeedStage;
    SeedStageMeaning(c.secrets, OperatorOwner(k, c.operators[k]), c.operators[k].spec.seedSecretName, PrefixOperator, true, x.seed);
  }

  // From the system account on, for a status that knows the key pair of this seed.
  lemma SystemStageMeaning(c: Cluster, k: Key, s: OperatorStatus, seed: Seed, x: OperatorOracle)
    requires Coupled(c) && k in c.operators && s.Coupled() && IsTrue(s.seed)
    ensures var p := SystemAccountStage(c, k, s, seed, x);
            && p.status.Coupled() && p.exit != SeedStopped && (Stopped(p.exit) ==> StopsAt(p.exit, p.status))
            && (p.exit == KeysStopped ==> (p.status.Ready() <==> IsTrue(s.keys) && IsTrue(s.jwt)))
            && (p.exit == Completed ==> (p.status.Ready() <==> x.list == Listed || IsTrue(s.keys)))
            && (p.exit == Completed ==> SelfSigned(c, k, p.store, p.status, seed) && p.status.keyPair == s.keyPair)
            && (p.exit == Completed && x.list == Listed ==> ListsServing(c, k, p.status.signingKeys))
            && SystemWell(c, k, x, p.exit, p.status)
  {
    SystemAccountFoundIff(c, k, x.accountOk);
    hide OperatorKeysStage, FindSystemAccount, SelfSigned, SystemAccountSeeded, RefersToSystem, Coupled, ListsServing, OperatorStatus.Ready;
    match FindSystemAccount(c, k, x.accountOk)
    case Fail(_) =>
    case Ok(ref) => KeysStageMeaning(c, k, s.MarkSystemAccountResolved(ref), seed, x);
  }

  lemma StagesMeaning(c: Cluster, k: Key, s: OperatorStatus, x: OperatorOracle)
    requires Coupled(c) && k in c.operators && s.Coupled()
    ensures PlansWell(c, k, s, OperatorStages(c, k, s, x), x)
  {
    hide OperatorSeedStage, SystemAccountStage, Verdict, SelfSigned, SystemAccountSeeded, RefersToSystem, Coupled, HoldsSeed, ListsServing;
    hide OperatorStatus.Ready, MarkedAs;
    var out := OperatorSeedStage(c, k, x);
    if out.SeedReady? && !out.wrote {
      SeedOfStage(c, k, x);
      SystemStageMeaning(c, k, s.MarkSeedSecretReady(out.keyPair), out.seed, x);
    }
  }

  // An Operator that completes has a stored JWT that agrees with its status, whose system account is the
  // Account that the spec names with the public key of that Account's pair, and is Ready if the keys
  // were listed now or before; a marked failure is not Ready, and after the unmarked one, a failure to
  // list the keys, it is Ready exactly when keys and JWT were. The status stays coupled, and nothing
  // else in the cluster changes but secrets.
  lemma OperatorStepMeaning(c: Cluster, k: Key, x: OperatorOracle)
    requires Coupled(c)
    ensures var st := ReconcileOperator(c, k, x);
            && Coupled(st.c) && st.status.Coupled()
            && (Stopped(st.exit) ==> StopsAt(st.exit, st.status) && !st.status.Ready())
            && (st.exit == KeysStopped || st.exit == Completed ==> k in c.operators)
            && (st.exit == KeysStopped ==>
                  (st.status.Ready() <==> IsTrue(c.operators[k].status.keys) && IsTrue(c.operators[k].status.jwt)))
            && (st.exit == Completed ==>
                  (st.status.Ready() <==> x.list == Listed || IsTrue(c.operators[k].status.keys)))
            && (st.exit == Completed ==> CompletesWell(c, k, st.c.secrets, st.status))
            && (st.exit == Completed && x.list == Listed ==> ListsServing(c, k, st.status.signingKeys))
            && (k in c.operators ==> SystemWell(c, k, x, st.exit, st.status))
            && st.c == c.(operators := st.c.operators, secrets := st.c.secrets)
  {
    assert NewOperatorStatus.Coupled();
    if x.fetchOk && k in c.operators {
      var s := c.operators[k].status.InitializeConditions();
      InitialCoupled(c, k);
      StagesMeaning(c, k, s, x);
      var p := OperatorStages(c, k, s, x);
      ClosedCoupled(c, k, p, x);
      if Stopped(p.exit) { StoppedNotReady(p.exit, p.status); }
    }
    hide OperatorStages, CompletesWell, ListsServing, SystemAccountSeeded, RefersToSystem, Coupled, OperatorStatus.Coupled, OperatorStatus.Ready;
  }

  lemma InitialCoupled(c: Cluster, k: Key)
    requires Coupled(c) && k in c.operators
    ensures c.operators[k].status.InitializeConditions().Coupled()
  {
  }

  lemma ClosedCoupled(c: Cluster, k: Key, p: OperatorPlan, x: OperatorOracle)
    requires Coupled(c) && k in c.operators && p.status.Coupled()
    ensures Coupled(CloseOperator(c, k, p, x).c)
  {
    hide OperatorStatus.Coupled;
  }

  /******* What is returned *******/

  // A system account that is not there goes to the runtime; a failure of a secret stage is final exactly
  // when the secret that is there cannot be used; a JWT that was written is looked at again.
  predicate OperatorReturns(c: Cluster, k: Key, x: OperatorOracle, exit: OperatorExit, store: Store, result: CtrlResult, error: Option<Err>)
    requires k in c.operators
  {
    var o := OperatorOwner(k, c.operators[k]);
    match exit
    case SeedCreated => result == Requeue && error == None
    case SeedStopped => SeedReturns(c.secrets, o, c.operators[k].spec.seedSecretName, x.seed, result, error)
    case SystemAccountStopped => error.Some?
    case KeysStopped => if x.list == ListMissing then result == Requeue && error == None else x.list == ListFails && error.Some?
    case JWTStopped => error == None && (result == Done <==> !x.encodeOk || JwtFinal(c.secrets, o, c.operators[k].spec.jwtSecretName, x.jwt))
    case Completed => error == None && (result == Done <==> store == c.secrets)
    case _ => false
  }

  predicate PlanReturns(c: Cluster, k: Key, x: OperatorOracle, p: OperatorPlan)
    requires k in c.operators
  {
    OperatorReturns(c, k, x, p.exit, p.store, p.result, p.error)
  }

  lemma JWTStageReturns(c: Cluster, k: Key, s: OperatorStatus, seed: Seed, x: OperatorOracle)
    requires k in c.operators && s.systemAccount.Some? && s.keyPair.Some?
    ensures PlanReturns(c, k, x, OperatorJWTStage(c, k, s, seed, x))
  {
    hide JwtFinal, JwtCallsOk, SeedUsable, Verdict, MarkOperatorJWT, Stamped, Stores, OperatorStatus.Coupled, OperatorStatus.Ready;
    var want := OperatorClaimsOf(k.name, c.operators[k].spec, s, seed, x.iat, x.jti).value;
    var o, name := OperatorOwner(k, c.operators[k]), c.operators[k].spec.jwtSecretName;
    JwtStageOkIff(c.secrets, o, name, want, Signed(want), x.jwt);
    if JwtStage(c.secrets, o, name, want, Signed(want), x.jwt).result.Ok? { JwtStageMeaning(c.secrets, o, name, want, x.jwt); }
    hide JwtStage, OperatorClaimsOf;
  }

  lemma KeysStageReturns(c: Cluster, k: Key, s: OperatorStatus, seed: Seed, x: OperatorOracle)
    requires Coupled(c) && k in c.operators && s.systemAccount.Some? && s.keyPair.Some?
    ensures PlanReturns(c, k, x, OperatorKeysStage(c, k, s, seed, x))
  {
    hide Coupled, OperatorJWTStage, ListedKeys, JwtFinal, SeedUsable, OperatorStatus.Coupled, OperatorStatus.Ready;
    JWTStageReturns(c, k, s, seed, x);
    JWTStageReturns(c, k, s.MarkSigningKeysUpdated(ListedKeys(c, k)), seed, x);
  }

  lemma SystemStageReturns(c: Cluster, k: Key, s: OperatorStatus, seed: Seed, x: OperatorOracle)
    requires Coupled(c) && k in c.operators && s.keyPair.Some?
    ensures PlanReturns(c, k, x, SystemAccountStage(c, k, s, seed, x))
  {
    SystemAccountFoundIff(c, k, x.accountOk);
    hide Coupled, FindSystemAccount, OperatorKeysStage, JwtFinal, SeedUsable, Verdict, MarkSystemAccount, IntoResult;
    hide SystemAccountSeeded, RefersToSystem, OperatorStatus.Coupled, OperatorStatus.Ready;
    match FindSystemAccount(c, k, x.accountOk)
    case Fail(_) =>
    case Ok(ref) => KeysStageReturns(c, k, s.MarkSystemAccountResolved(ref), seed, x);
  }

  lemma StagesReturn(c: Cluster, k: Key, s: OperatorStatus, x: OperatorOracle)
    requires Coupled(c) && k in c.operators
    ensures PlanReturns(c, k, x, OperatorStages(c, k, s, x))
  {
    hide Coupled, SeedStage, SystemAccountStage, JwtFinal, SeedUsable, Verdict, MarkOperatorSeed, IntoResult, OperatorStatus.Coupled, OperatorStatus.Ready;
    match OperatorSeedStage(c, k, x)
    case SeedFailed(_) =>
      SeedFailureMeaning(c.secrets, OperatorOwner(k, c.operators[k]), c.operators[k].spec.seedSecretName, PrefixOperator, true, x.seed);
    case SeedReady(_, kp, seed, _) => SystemStageReturns(c, k, s.MarkSeedSecretReady(kp), seed, x);
  }

  // What is returned when the status is stored. A status that did not reach the server is written again.
  lemma OperatorStepReturns(c: Cluster, k: Key, x: OperatorOracle)
    requires Coupled(c) && k in c.operators && x.fetchOk
    ensures var st, s := ReconcileOperator(c, k, x), c.operators[k].status;
            && (x.status == StatusStored ==> OperatorReturns(c, k, x, st.exit, st.c.secrets, st.result, st.error))
            && k in st.c.operators && st.c.operators[k].status == (if x.status == StatusStored then st.status else s)
            && (st.c.operators[k].status != st.status ==> st.error.Some? || st.result == Requeue)
  {
    StagesReturn(c, k, c.operators[k].status.InitializeConditions(), x);
    hide Coupled, OperatorStages, OperatorReturns, OperatorStatus.Coupled, OperatorStatus.Ready;
  }

  lemma NothingFetched(c: Cluster, k: Key, x: OperatorOracle)
    requires Coupled(c) && (!x.fetchOk || k !in c.operators)
    ensures var st := ReconcileOperator(c, k, x);
            st.c == c && st.writes == [] && st.result == Done && (st.error == None <==> x.fetchOk)
  {
  }

  // A seed secret that is written belongs to the Operator and is guarded; a new one holds a new operator seed.
  lemma WrittenOperatorSeed(c: Cluster, k: Key, x: OperatorOracle)
    requires Coupled(c) && ReconcileOperator(c, k, x).exit == SeedCreated
    ensures k in c.operators
    ensures var st, q := ReconcileOperator(c, k, x), OperatorSeedKey(c, k);
            exists seed :: && SeedWrittenFor(st.c.secrets, q, seed, Owner(KindOperator, k, c.operators[k].uid), true)
                           && st.status.keyPair == Some(KeyPair(PublicKey(seed), c.operators[k].spec.seedSecretName))
                           && (if q in c.secrets then HoldsSeed(c.secrets, q, seed) else seed.prefix == PrefixOperator && x.seed.newKey == Some(seed.key))
  {
    var s := c.operators[k].status.InitializeConditions();
    SeedCreatedPlan(c, k, s, x);
    hide OperatorStages, Coupled, OperatorStatus.Coupled, OperatorStatus.Ready, SeedStage, SeedWrittenFor, SeedBuilt;
    var o, name := OperatorOwner(k, c.operators[k]), c.operators[k].spec.seedSecretName;
    SeedStageMeaning(c.secrets, o, name, PrefixOperator, true, x.seed);
    WrittenSeed(c.secrets, o, name, PrefixOperator, true, x.seed);
  }

  lemma SeedCreatedPlan(c: Cluster, k: Key, s: OperatorStatus, x: OperatorOracle)
    requires Coupled(c) && k in c.operators && OperatorStages(c, k, s, x).exit == SeedCreated
    ensures var out, p := OperatorSeedStage(c, k, x), OperatorStages(c, k, s, x);
            out.SeedReady? && out.wrote && p.store == out.store && p.status.keyPair == Some(out.keyPair)
  {
    hide Coupled, OperatorSeedStage, FindSystemAccount, ListedKeys, OperatorClaimsOf, JwtStage, Verdict, MarkOperatorSeed, MarkSystemAccount, MarkOperatorJWT;
    hide OperatorStatus.Coupled, OperatorStatus.Ready;
  }

  /******* Seeds *******/

  lemma StagesKeepSeeds(c: Cluster, k: Key, s: OperatorStatus, x: OperatorOracle, q: Key, seed: Seed)
    requires Coupled(c) && k in c.operators
    ensures GuardedSeed(c.secrets, q, seed) ==> GuardedSeed(OperatorStages(c, k, s, x).store, q, seed)
    ensures q == OperatorSeedKey(c, k) && HoldsSeed(c.secrets, q, seed) ==> HoldsSeed(OperatorStages(c, k, s, x).store, q, seed)
  {
    hide GuardedSeed, HoldsSeed, SeedStage, OperatorKeysStage, Verdict, FindSystemAccount;
    hide OperatorStatus.Coupled, OperatorStatus.Ready, MarkOperatorSeed, MarkSystemAccount;
    var o, name := OperatorOwner(k, c.operators[k]), c.operators[k].spec.seedSecretName;
    var out := OperatorSeedStage(c, k, x);
    if out.SeedReady? {
      SeedStageKeepsSeeds(c.secrets, o, name, PrefixOperator, true, x.seed, q, seed);
      if !out.wrote {
        if q == OperatorSeedKey(c, k) && HoldsSeed(c.secrets, q, seed) {
          SettledSeedIsGuarded(c, k, x, seed);
        }
        KeysStageKeepsSeeds(c, k, s.MarkSeedSecretReady(out.keyPair), out.seed, x, q, seed);
      }
    }
  }

  lemma SettledSeedIsGuarded(c: Cluster, k: Key, x: OperatorOracle, seed: Seed)
    requires k in c.operators && HoldsSeed(c.secrets, OperatorSeedKey(c, k), seed)
    requires OperatorSeedStage(c, k, x).SeedReady? && !OperatorSeedStage(c, k, x).wrote
    ensures GuardedSeed(c.secrets, OperatorSeedKey(c, k), seed)
  {
    hide SeedStage;
    var o, name := OperatorOwner(k, c.operators[k]), c.operators[k].spec.seedSecretName;
    SeedStageMeaning(c.secrets, o, name, PrefixOperator, true, x.seed);
    BuiltSeedIsGuarded(c.secrets, o, name);
  }

  lemma KeysStageKeepsSeeds(c: Cluster, k: Key, s: OperatorStatus, signer: Seed, x: OperatorOracle, q: Key, seed: Seed)
    requires Coupled(c) && k in c.operators
    ensures GuardedSeed(c.secrets, q, seed) ==>
              && GuardedSeed(SystemAccountStage(c, k, s, signer, x).store, q, seed)
              && HoldsSeed(SystemAccountStage(c, k, s, signer, x).store, q, seed)
  {
    hide JwtStage, Verdict, FindSystemAccount, OperatorKeys, MarkOperatorJWT, MarkSystemAccount, Stamped;
    hide OperatorStatus.Coupled, OperatorStatus.Ready;
    if GuardedSeed(c.secrets, q, seed) {
      forall want: Claims ensures
        GuardedSeed(JwtStage(c.secrets, OperatorOwner(k, c.operators[k]), c.operators[k].spec.jwtSecretName, want, Signed(want), x.jwt).store, q, seed)
      {
        JwtStageKeepsSeeds(c.secrets, OperatorOwner(k, c.operators[k]), c.operators[k].spec.jwtSecretName, want, Signed(want), x.jwt, q, seed);
      }
    }
  }

  lemma OperatorStepKeepsSeeds(c: Cluster, k: Key, x: OperatorOracle, q: Key, seed: Seed)
    requires Coupled(c)
    ensures GuardedSeed(c.secrets, q, seed) ==> GuardedSeed(ReconcileOperator(c, k, x).c.secrets, q, seed)
    ensures k in c.operators && q == OperatorSeedKey(c, k) && HoldsSeed(c.secrets, q, seed) ==>
              HoldsSeed(ReconcileOperator(c, k, x).c.secrets, q, seed)
  {
    hide OperatorStages, GuardedSeed, HoldsSeed, OperatorStatus.Coupled, OperatorStatus.Ready;
    if x.fetchOk && k in c.operators {
      StagesKeepSeeds(c, k, c.operators[k].status.InitializeConditions(), x, q, seed);
    }
  }

  /******* Where the secrets of a step come from *******/

  function OperatorJwtOut(c: Cluster, k: Key, want: Claims, x: OperatorOracle): JwtOut
    requires k in c.operators
  {
    JwtStage(c.secrets, OperatorOwner(k, c.operators[k]), c.operators[k].spec.jwtSecretName, want, Signed(want), x.jwt)
  }

  // As they were, as the seed stage leaves them, or as the JWT stage does for some claims.
  ghost predicate StoreTraced(c: Cluster, k: Key, x: OperatorOracle, store: Store)
    requires k in c.operators
  {
    || store == c.secrets
    || (OperatorSeedStage(c, k, x).SeedReady? && store == OperatorSeedStage(c, k, x).store)
    || exists want: Claims :: store == OperatorJwtOut(c, k, want, x).store
  }

  lemma JWTStageTraced(c: Cluster, k: Key, s: OperatorStatus, seed: Seed, x: OperatorOracle)
    requires k in c.operators
    ensures StoreTraced(c, k, x, OperatorJWTStage(c, k, s, seed, x).store)
  {
    hide JwtStage, Verdict, MarkOperatorJWT, OperatorSeedStage, OperatorStatus.Coupled, OperatorStatus.Ready;
    var want := OperatorClaimsOf(k.name, c.operators[k].spec, s, seed, x.iat, x.jti);
    if want.Some? { assert StoreTraced(c, k, x, OperatorJwtOut(c, k, want.value, x).store); }
  }

  lemma OperatorStepTraced(c: Cluster, k: Key, x: OperatorOracle)
    requires Coupled(c) && k in c.operators
    ensures StoreTraced(c, k, x, ReconcileOperator(c, k, x).c.secrets)
  {
    hide OperatorJWTStage, OperatorSeedStage, OperatorJwtOut, OperatorKeys, Verdict, FindSystemAccount;
    hide MarkOperatorSeed, MarkSystemAccount, OperatorStatus.Coupled, OperatorStatus.Ready;
    var out := OperatorSeedStage(c, k, x);
    if out.SeedReady? {
      forall s: OperatorStatus ensures StoreTraced(c, k, x, OperatorJWTStage(c, k, s, out.seed, x).store) {
        JWTStageTraced(c, k, s, out.seed, x);
      }
    }
  }
}
