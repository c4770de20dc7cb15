/**
 Concrete clusters on which the code does less than one would expect.

 One namespace holds an Operator, an Account, a User and, where needed, a SigningKey. Names have
 different lengths so that they are plainly different.
 */
module Specimens {
  import opened Texts
  import opened ConditionRuns
  import opened Lifecycles
  import opened Secrets
  import opened SigningKeys
  import opened ClusterState
  import opened SecretStages
  import opened OperatorController
  import opened AccountController
  import opened UserController
  import Accounts = AccountTheorems
  import opened SigningKeyController
  import Operators = OperatorTheorems
  import Users = UserTheorems
  import Fixpoint = UserFixpoint
  import Seeds = UserSeeds
  import Convergence = AccountConvergence
  import Outcomes = AccountOutcomes

  const OP: Key := Key("n", "op")
  const ACC: Key := Key("n", "acc")
  const USR: Key := Key("n", "user")

  const OpSeed: Seed := Seed(PrefixOperator, "o")
  const AccSeed: Seed := Seed(PrefixAccount, "a")
  const UsrSeed: Seed := Seed(PrefixUser, "u")

  const OP_SEED: Key := Key("n", "1")
  const ACC_SEED: Key := Key("n", "22")
  const ACC_JWT: Key := Key("n", "333")
  const USR_SEED: Key := Key("n", "4444")
  const USR_JWT: Key := Key("n", "55555")

  /******* An Operator and its Account *******/

  const AnOperator: Operator :=
    Operator("1", OperatorSpec("7777777", "1", "acc", None, None, None, ""),
             OperatorStatus(Up, Up, Counted(0), Up, Some(KeyPair(PublicKey(OpSeed), "1")), [], Some(KeyPairRef(ACC, PublicKey(AccSeed)))))

  function AnAccount(pushed: Entry): Account {
    Account("22", map[LabelOperatorName := "op"], {AccountFinalizer}, false,
            AccountSpec(IssuerRef(KindOperator, "", "op"), "333", "22", None, None, None, ""),
            AccountStatus(Up, Up, Up, Counted(0), Up, pushed, Some(KeyPair(PublicKey(AccSeed), "22")), [], Some(OP)))
  }

  // A secret that merely holds a seed.
  function SeedSecret(seed: Seed): Secret { EmptySecret.(data := map[SeedKey := SeedBlob(seed)]) }

  function JwtSecret(claims: Claims): Secret { EmptySecret.(data := map[JWTKey := JwtBlob(Signed(claims))]) }

  const AccClaims: Claims := AccountClaims(ClaimsData("", 0, PublicKey(OpSeed), PublicKey(AccSeed), "acc"), {}, "")

  function BuiltOpSeed(): (s: Secret)
    ensures SeedKey in s.data && s.data[SeedKey] == SeedBlob(OpSeed)
    ensures BuildSeedSecret(s, OperatorOwner(OP, AnOperator), OpSeed, true) == Some(s)
  {
    RebuildSeedSecret(EmptySecret, OperatorOwner(OP, AnOperator), OpSeed, true);
    BuildSeedSecret(EmptySecret, OperatorOwner(OP, AnOperator), OpSeed, true).value
  }

  function BuiltAccSeed(pushed: Entry): (s: Secret)
    ensures SeedKey in s.data && s.data[SeedKey] == SeedBlob(AccSeed)
    ensures BuildSeedSecret(s, OwnerOf(ACC, AnAccount(pushed)), AccSeed, true) == Some(s)
  {
    RebuildSeedSecret(EmptySecret, OwnerOf(ACC, AnAccount(pushed)), AccSeed, true);
    BuildSeedSecret(EmptySecret, OwnerOf(ACC, AnAccount(pushed)), AccSeed, true).value
  }

  function AccountWorld(pushed: Entry): Cluster {
    Cluster(map["n" := map[]], map[OP := AnOperator], map[ACC := AnAccount(pushed)], map[], [],
            map[OP_SEED := BuiltOpSeed(), ACC_SEED := BuiltAccSeed(pushed), ACC_JWT := JwtSecret(AccClaims)])
  }

  lemma NamesDiffer()
    ensures OP_SEED != ACC_SEED && OP_SEED != ACC_JWT && ACC_SEED != ACC_JWT
    ensures USR_SEED != ACC_SEED && USR_JWT != ACC_SEED && USR_SEED != USR_JWT && OP != ACC
  {
    assert |"1"| == 1 && |"22"| == 2 && |"333"| == 3 && |"4444"| == 4 && |"55555"| == 5;
    assert |"op"| == 2 && |"acc"| == 3;
  }

  lemma AccountWorldCoupled(pushed: Entry)
    ensures Coupled(AccountWorld(pushed))
  {
  }

  lemma AccountWorldSurrounded(pushed: Entry)
    ensures Coupled(AccountWorld(pushed)) && Convergence.Surrounded(AccountWorld(pushed), ACC)
    ensures Convergence.OperatorOf(AccountWorld(pushed), ACC) == OP && Convergence.SignerOf(AccountWorld(pushed), ACC) == OpSeed
    ensures Convergence.IssuerSeedKey(AccountWorld(pushed), ACC) == OP_SEED
  {
    var c := AccountWorld(pushed);
    NamesDiffer();
    AccountWorldCoupled(pushed);
    assert c.secrets[OP_SEED] == BuiltOpSeed();
    assert ResolveIssuer(c, c.accounts[ACC].spec.issuer, "n", true) == Ok(IssuerOperator(OP, AnOperator));
    assert LoadAccountIssuerSeed(c, IssuerOperator(OP, AnOperator), true) == Ok(OpSeed);
    assert FindOperator(c, ACC, IssuerOperator(OP, AnOperator), true, true) == Ok(OP);
  }

  lemma NoCandidates(pushed: Entry)
    ensures AllCoupled(Candidates(AccountWorld(pushed), ACC)) && Convergence.KeySet(AccountWorld(pushed), ACC) == {}
    ensures IsNext([], "22", [], Candidates(AccountWorld(pushed), ACC))
  {
    assert Candidates(AccountWorld(pushed), ACC) == [];
  }

  // Nothing is left to write.
  lemma AccountWorldSettled(pushed: Entry)
    ensures Convergence.Setting(AccountWorld(pushed), ACC) && Convergence.Rank(AccountWorld(pushed), ACC) == 0
  {
    var c := AccountWorld(pushed);
    NamesDiffer();
    AccountWorldSurrounded(pushed);
    NoCandidates(pushed);
    hide Convergence.Surrounded, Convergence.OperatorOf, Convergence.SignerOf, Convergence.IssuerSeedKey, Coupled, Candidates, Convergence.KeySet;
    assert c.secrets[ACC_SEED] == BuiltAccSeed(pushed) && c.secrets[ACC_JWT] == JwtSecret(AccClaims);
    hide BuildSeedSecret;
    assert Accounts.SeedSecretKey(c, ACC) == ACC_SEED && Accounts.JwtKey(c, ACC) == ACC_JWT;
    assert Convergence.SeedDone(c, ACC);
    Convergence.SeedDoneIsFree(c, ACC);
    assert Convergence.JwtNameFree(c, ACC) && Convergence.NamesApart(c, ACC);
    assert Convergence.DueClaims(c, ACC) == AccClaims;
    assert Convergence.JwtDone(c, ACC);
  }

  // Every call up to the push succeeds.
  predicate AllWell(x: AccountOracle) {
    && x.fetchOk && x.updateOk && x.issuerOk && x.ownerOk && x.namespaceOk && x.listOk && x.issuerSeedOk && x.encodeOk
    && x.seed.getOk && x.seed.newKey.Some? && x.seed.createOk && x.seed.updateOk
    && x.jwt.getOk && x.jwt.deleteOk && x.jwt.createOk && x.jwt.update == Updated
    && x.keys == []
  }

  lemma AccountWorldSends(pushed: Entry, x: AccountOracle)
    requires AllWell(x)
    ensures Coupled(AccountWorld(pushed))
    ensures x.push == PushFails ==>
              Reconcile(AccountWorld(pushed), ACC, x).nats == PushSent(Signed(AccClaims)) && Reconcile(AccountWorld(pushed), ACC, x).exit == PushFailure
    ensures x.push == PushSucceeds ==>
              Reconcile(AccountWorld(pushed), ACC, x).nats == PushSent(Signed(AccClaims)) && Reconcile(AccountWorld(pushed), ACC, x).exit == Pushed
  {
    var c := AccountWorld(pushed);
    AccountWorldSettled(pushed);
    AccountWorldJwt(pushed);
    AccountWorldSupplied(pushed, x);
    hide AccountWorld, Coupled, Reconcile, Convergence.Supplied, Convergence.Rank, Convergence.Surrounded, Convergence.NamesApart;
    hide Convergence.SeedNameFree, Convergence.JwtNameFree, AllWell;
    Convergence.ReconcileSends(c, ACC, x);
  }

  lemma AccountWorldSupplied(pushed: Entry, x: AccountOracle)
    requires AllWell(x)
    ensures ACC in AccountWorld(pushed).accounts && Convergence.Supplied(AccountWorld(pushed), ACC, x)
  {
    NoCandidates(pushed);
    hide Candidates, IsNext, AllCoupled;
  }

  lemma AccountWorldJwt(pushed: Entry)
    ensures var c := AccountWorld(pushed);
            && ACC in c.accounts && Accounts.JwtKey(c, ACC) in c.secrets
            && JWTKey in c.secrets[Accounts.JwtKey(c, ACC)].data
            && c.secrets[Accounts.JwtKey(c, ACC)].data[JWTKey] == JwtBlob(Signed(AccClaims))
  {
    NamesDiffer();
    assert Accounts.JwtKey(AccountWorld(pushed), ACC) == ACC_JWT;
  }

  // A JWT that was sent stays on the server after the Account is gone: the push reported an error, or
  // it succeeded and the status could not be stored.
  lemma SentJwtIsLeftBehind(x: AccountOracle, y: AccountOracle) returns (c: Cluster)
    requires AllWell(x) && y.fetchOk && y.updateOk
    requires (x.push == PushFails && x.status == StatusStored) || (x.push == PushSucceeds && x.status != StatusStored)
    ensures Coupled(c) && ACC in c.accounts && ACC in Reconcile(c, ACC, x).c.accounts
    ensures Reconcile(c, ACC, x).nats == PushSent(Signed(AccClaims))
    ensures Coupled(Accounts.Deleting(Reconcile(c, ACC, x).c, ACC))
    ensures var st := Reconcile(Accounts.Deleting(Reconcile(c, ACC, x).c, ACC), ACC, y);
            st.exit == Finalized && st.nats == NoCall
  {
    c := AccountWorld(Missing);
    AccountWorldSends(Missing, x);
    assert ACC in c.accounts && !IsTrue(c.accounts[ACC].status.pushed);
    hide Reconcile, Coupled;
    Accounts.SentThenLeftBehind(c, ACC, x, y);
  }

  // A pushed Account whose seed secret could not be read once panics when it is deleted.
  lemma SecondPanicIsReachable(x: AccountOracle, y: AccountOracle) returns (c: Cluster)
    requires x.fetchOk && !x.seed.getOk && x.status == StatusStored
    requires y.fetchOk && y.operatorOk && y.operatorSeedOk && y.revoke.RevokeSucceeds?
    ensures Coupled(c) && ACC in c.accounts && c.accounts[ACC].status.Ready()
    ensures ACC in Reconcile(c, ACC, x).c.accounts && Coupled(Accounts.Deleting(Reconcile(c, ACC, x).c, ACC))
    ensures Reconcile(Accounts.Deleting(Reconcile(c, ACC, x).c, ACC), ACC, y).exit == Panicked
  {
    c := AccountWorld(Up);
    AccountWorldCoupled(Up);
    NamesDiffer();
    assert c.secrets[OP_SEED] == BuiltOpSeed();
    assert Accounts.ReachesDelete(c, OP, y);
    assert AccountSeedStage(c, ACC, x).SeedFailed?;
    hide Reconcile, Coupled, AccountSeedStage, Accounts.ReachesDelete;
    Accounts.DeletedAfterSeedFailurePanics(c, ACC, x, y);
  }

  // A deletion fails because the options of the connection cannot be built. The retry, in which every
  // call would succeed, removes nothing and lets the Account go.
  lemma FailedOptionsLeaveJwt(x: AccountOracle, y: AccountOracle) returns (c: Cluster)
    requires x.fetchOk && x.operatorOk && x.operatorSeedOk && x.revoke.RevokeOptionsFail? && x.status == StatusStored
    requires y.fetchOk && y.updateOk && y.operatorOk && y.operatorSeedOk && y.revoke.RevokeSucceeds?
    ensures Coupled(c) && ACC in c.accounts && c.accounts[ACC].deleting && c.accounts[ACC].status.Ready()
    ensures Reconcile(c, ACC, x).exit == FinalizeFailed && Coupled(Reconcile(c, ACC, x).c)
    ensures var st := Reconcile(Reconcile(c, ACC, x).c, ACC, y); st.exit == Finalized && st.nats == NoCall
  {
    var live := AccountWorld(Up);
    AccountWorldCoupled(Up);
    NamesDiffer();
    assert live.secrets[OP_SEED] == BuiltOpSeed();
    c := Accounts.Deleting(live, ACC);
    Accounts.DeletingCoupled(live, ACC);
    assert c.accounts[ACC].status.InitializeConditions() == c.accounts[ACC].status;
    assert Accounts.OperatorReadable(c, OP, x) && Accounts.OperatorReadable(c, OP, y);
    OptionsFail(c, x);
    hide AccountWorld, Reconcile, Coupled, Accounts.OperatorReadable;
    Outcomes.FailedRemovalIff(c, ACC, x, y);
  }

  lemma OptionsFail(c: Cluster, x: AccountOracle)
    requires Coupled(c) && ACC in c.accounts && c.accounts[ACC].deleting && AccountFinalizer in c.accounts[ACC].finalizers && x.fetchOk
    requires var s := c.accounts[ACC].status; IsTrue(s.jwt) && IsTrue(s.pushed) && Outcomes.OptionsFailed(c, s, x)
    ensures Reconcile(c, ACC, x).exit == FinalizeFailed
  {
    hide Coupled, Issue, AccountStatus.Coupled, AccountStatus.Ready;
  }

  /******* Failures that leave an object Ready *******/

  // The Operator's signing keys cannot be listed.
  lemma OperatorListFailureStaysReady(x: OperatorOracle) returns (c: Cluster)
    requires x.fetchOk && x.seed.getOk && x.accountOk && (x.list == ListFails || x.list == ListMissing)
    ensures Coupled(c) && OP in c.operators && c.operators[OP].status.Ready()
    ensures var st := ReconcileOperator(c, OP, x); st.exit == KeysStopped && st.status.Ready()
  {
    c := AccountWorld(Up);
    AccountWorldCoupled(Up);
    NamesDiffer();
    assert c.secrets[OP_SEED] == BuiltOpSeed();
    assert FindSystemAccount(c, OP, true) == Ok(KeyPairRef(ACC, PublicKey(AccSeed)));
    hide BuildSeedSecret, Coupled, FindSystemAccount;
    SeedStageSettled(c.secrets, OperatorOwner(OP, AnOperator), "1", PrefixOperator, true, x.seed);
    hide SeedStage;
    Operators.OperatorStepMeaning(c, OP, x);
  }

  // The Account's signing keys cannot be listed.
  lemma AccountListFailureStaysReady(x: AccountOracle) returns (c: Cluster)
    requires x.fetchOk && x.seed.getOk && x.issuerOk && x.ownerOk && x.namespaceOk && !x.listOk
    ensures Coupled(c) && ACC in c.accounts && c.accounts[ACC].status.Ready()
    ensures var st := Reconcile(c, ACC, x); st.exit == KeysFailure && st.status.Ready()
  {
    c := AccountWorld(Up);
    AccountWorldSurrounded(Up);
    AccountWorldSeed(Up, x);
    hide Coupled, ResolveIssuer, FindOperator, LoadAccountIssuerSeed, AccountSeedStage, ResolveOperator, Finalize, StoreJWT, BuildSeedSecret;
    Accounts.StepMeaning(c, ACC, x);
  }

  lemma AccountWorldSeed(pushed: Entry, x: AccountOracle)
    requires x.seed.getOk
    ensures var c := AccountWorld(pushed);
            AccountSeedStage(c, ACC, x) == SeedReady(c.secrets, KeyPair(PublicKey(AccSeed), "22"), AccSeed, false)
  {
    var c := AccountWorld(pushed);
    NamesDiffer();
    assert c.secrets[ACC_SEED] == BuiltAccSeed(pushed);
    hide BuildSeedSecret;
    SeedStageSettled(c.secrets, OwnerOf(ACC, AnAccount(pushed)), "22", PrefixAccount, true, x.seed);
  }

  // The SigningKey's secret cannot be read.
  lemma KeySecretFailureStaysReady(x: KeyOracle) returns (c: Cluster)
    requires x.fetchOk && x.ownerOk && !x.getOk
    ensures Coupled(c) && GetSigningKey(c.signingKeys, AKey.key).Some?
    ensures GetSigningKey(c.signingKeys, AKey.key).value.status.Ready()
    ensures var st := ReconcileKey(c, AKey.key, x); st.exit == KeyPairNotReady && st.status.Ready()
  {
    var sk := AKey.(labels := Labelled);
    c := UserWorld(AUser(BySigningKey, "55555", "666666", Labelled), AnAccount(Up), [sk]);
    hide UserSecrets;
    assert Coupled(c);
    assert GetSigningKey([sk], AKey.key) == Some(sk);
    assert FindKeyOwner(c, sk, true) == Owned(TypedRef(KindAccount, "n", "acc", "22"));
    hide Coupled, FindKeyOwner, GetSigningKey;
    KeyStepMeaning(c, AKey.key, x);
  }

  /******* A key of an Account *******/

  const ForeignKey: SigningKey :=
    SigningKey(Key("n", "key"), "333", map[], SigningKeySpec(KindAccount, "op", "k"),
               SigningKeyStatus(Up, Up, Some(KeyPair(PublicKey(AccSeed), "k")), Some(TypedRef(KindAccount, "n", "op", "22"))))

  // An Operator lists the key of an Account that has its name.
  lemma OperatorListsForeignKey()
    ensures ForeignKey.status.Coupled() && ForeignKey.status.ownerRef.value.kind == KindAccount
    ensures OperatorKeys(OP, [ForeignKey]) == [SigningKeyEntry("key", ForeignKey.status.keyPair.value)]
  {
    assert [ForeignKey][..0] == [];
    assert OperatorKeys(OP, [ForeignKey][..0]) == [];
  }

  /******* A User of the Account *******/

  function AUser(issuer: IssuerRef, jwtName: string, credsName: string, labels: Labels): User {
    User("4444", labels, UserSpec(issuer, jwtName, "4444", credsName, "", None, None),
         UserStatus(Up, Up, Up, Up, Up, Some(KeyPair(PublicKey(UsrSeed), "4444")), Some(ACC)))
  }

  const ByAccount: IssuerRef := IssuerRef(KindAccount, "", "acc")
  const BySigningKey: IssuerRef := IssuerRef(KindSigningKey, "", "key")
  const UsrOwner: Owner := Owner(KindUser, USR, "4444")
  const UsrPair: KeyPair := KeyPair(PublicKey(UsrSeed), "4444")
  const UsrClaims: Claims := UserClaims(ClaimsData("", 0, PublicKey(AccSeed), PublicKey(UsrSeed), "user"), "", "", false, "")

  function BuiltUsrSeed(): (s: Secret)
    ensures SeedKey in s.data && s.data[SeedKey] == SeedBlob(UsrSeed) && s.finalizers == {}
    ensures BuildSeedSecret(s, UsrOwner, UsrSeed, false) == Some(s)
  {
    RebuildSeedSecret(EmptySecret, UsrOwner, UsrSeed, false);
    BuildSeedSecret(EmptySecret, UsrOwner, UsrSeed, false).value
  }

  const UserSecrets: Store := map[ACC_SEED := SeedSecret(AccSeed), USR_SEED := BuiltUsrSeed(), USR_JWT := JwtSecret(UsrClaims)]

  function UserWorld(usr: User, acc: Account, keys: seq<SigningKey>): Cluster {
    Cluster(map["n" := map[]], map[], map[ACC := acc], map[USR := usr], keys, UserSecrets)
  }

  lemma UserSecretsAt()
    ensures ACC_SEED in UserSecrets && UserSecrets[ACC_SEED] == SeedSecret(AccSeed)
    ensures USR_SEED in UserSecrets && UserSecrets[USR_SEED] == BuiltUsrSeed()
    ensures USR_JWT in UserSecrets && UserSecrets[USR_JWT] == JwtSecret(UsrClaims)
  {
    NamesDiffer();
  }

  // Every call that a User's reconcile makes on its way to the credentials succeeds.
  predicate UserWell(x: UserOracle) {
    && x.fetchOk && x.seed.getOk && x.issuerOk && x.ownerOk && x.namespaceOk && x.issuerSeedOk && x.encodeOk && x.jwt.getOk
  }

  lemma UserSeedPasses(c: Cluster, x: UserOracle)
    requires USR in c.users && c.users[USR].uid == "4444" && c.users[USR].spec.seedSecretName == "4444" && c.secrets == UserSecrets && x.seed.getOk
    ensures UserSeedStage(c, USR, x) == SeedReady(c.secrets, UsrPair, UsrSeed, false)
  {
    UserSecretsAt();
    hide BuildSeedSecret;
    SeedStageSettled(c.secrets, UsrOwner, "4444", PrefixUser, false, x.seed);
  }

  // A User issued by its Account: everything is found.
  lemma UserWorldReaches(jwtName: string, credsName: string, labels: Labels, x: UserOracle)
    requires UserWell(x)
    ensures var c := UserWorld(AUser(ByAccount, jwtName, credsName, labels), AnAccount(Up), []);
            && Coupled(c)
            && UserSeedStage(c, USR, x) == SeedReady(c.secrets, UsrPair, UsrSeed, false)
            && Fixpoint.UserIssuer(c, USR, x) == Ok(IssuerAccount(ACC, AnAccount(Up)))
            && FindAccount(c, IssuerAccount(ACC, AnAccount(Up)), x.ownerOk) == FoundAccount(ACC, AnAccount(Up))
            && LoadIssuerSeed(c, IssuerAccount(ACC, AnAccount(Up)), PrefixAccount, x.issuerSeedOk) == Ok(AccSeed)
            && Fixpoint.ReachesLabel(c, USR, x)
            && (AccountLabel(labels) == "acc" ==> Fixpoint.ReachesJwt(c, USR, x))
  {
    var c := UserWorld(AUser(ByAccount, jwtName, credsName, labels), AnAccount(Up), []);
    UserSeedPasses(c, x);
    UserSecretsAt();
    hide SeedStage, BuildSeedSecret, UserSecrets;
    assert ResolveIssuer(c, ByAccount, "n", true) == Ok(IssuerAccount(ACC, AnAccount(Up)));
    assert ValidateSelectors(c, "n", None, None, "n", labels, true).Ok?;
    hide ResolveIssuer, ValidateSelectors;
  }

  const Labelled: Labels := map[LabelAccountName := "acc"]

  // The JWT secret of such a User is current.
  lemma UserWorldJwtSettled(credsName: string, x: UserOracle)
    requires UserWell(x)
    ensures var c := UserWorld(AUser(ByAccount, "55555", credsName, Labelled), AnAccount(Up), []);
            Fixpoint.JwtSettled(c, USR, UsrPair, AnAccount(Up), AccSeed, x)
  {
    var c := UserWorld(AUser(ByAccount, "55555", credsName, Labelled), AnAccount(Up), []);
    UserSecretsAt();
    hide UserSecrets;
    assert Users.UserJwtKey(c, USR) == USR_JWT;
    assert Fixpoint.DueUserClaims(c, USR, UsrPair, AnAccount(Up), AccSeed) == UsrClaims;
  }

  /******* Seeds that are lost *******/

  // One name for seed and JWT: the seed is gone after a single reconcile.
  lemma SharedWithJwtLosesSeed(x: UserOracle) returns (c: Cluster)
    requires UserWell(x) && x.jwt.deleteOk
    ensures Coupled(c) && USR in c.users && Users.UserSeedKey(c, USR) == USR_SEED
    ensures HoldsSeed(c.secrets, USR_SEED, UsrSeed) && !HoldsSeed(ReconcileUser(c, USR, x).c.secrets, USR_SEED, UsrSeed)
  {
    c := UserWorld(AUser(ByAccount, "4444", "666666", Labelled), AnAccount(Up), []);
    UserWorldReaches("4444", "666666", Labelled, x);
    UserSecretsAt();
    hide Coupled, ReconcileUser, Fixpoint.ReachesJwt, UserSecrets;
    assert Users.UserSeedKey(c, USR) == USR_SEED == Users.UserJwtKey(c, USR);
    Seeds.UserSeedLostIff(c, USR, x, UsrSeed);
  }

  // One name for seed and credentials: the same.
  lemma SharedWithCredsLosesSeed(x: UserOracle) returns (c: Cluster)
    requires UserWell(x) && !x.creds.ca.CAFails? && x.creds.getOk && x.creds.formatOk && x.creds.updateOk
    ensures Coupled(c) && USR in c.users && Users.UserSeedKey(c, USR) == USR_SEED
    ensures HoldsSeed(c.secrets, USR_SEED, UsrSeed) && !HoldsSeed(ReconcileUser(c, USR, x).c.secrets, USR_SEED, UsrSeed)
  {
    c := UserWorld(AUser(ByAccount, "55555", "4444", Labelled), AnAccount(Up), []);
    UserWorldReaches("55555", "4444", Labelled, x);
    UserWorldJwtSettled("4444", x);
    UserSecretsAt();
    NamesDiffer();
    hide Coupled, ReconcileUser, Fixpoint.ReachesJwt, UserSecrets, Fixpoint.JwtSettled, FindAccount, LoadIssuerSeed, Fixpoint.UserIssuer;
    assert Users.UserSeedKey(c, USR) == USR_SEED == Users.UserCredsKey(c, USR) && Users.UserJwtKey(c, USR) == USR_JWT;
    Seeds.UserSeedLostIff(c, USR, x, UsrSeed);
  }

  /******* Failures that leave a User Ready *******/

  // The label cannot be written.
  lemma LabelFailureStaysReady(x: UserOracle) returns (c: Cluster)
    requires UserWell(x) && !x.updateOk
    ensures Coupled(c) && USR in c.users && c.users[USR].status.Ready()
    ensures var st := ReconcileUser(c, USR, x); st.exit == UserLabelNotWritten && st.status.Ready()
  {
    c := UserWorld(AUser(ByAccount, "55555", "666666", map[]), AnAccount(Up), []);
    UserWorldReaches("55555", "666666", map[], x);
    hide Coupled, Fixpoint.ReachesLabel, UserSecrets, FindAccount, LoadIssuerSeed, Fixpoint.UserIssuer, UserSeedStage, UserStages, UserJWTStage;
    Fixpoint.StagesReachLabel(c, USR, c.users[USR].status.InitializeConditions(), x);
    assert |"acc"| == 3;
    Users.UserStepMeaning(c, USR, x);
  }

  // The CA cannot be read.
  lemma CAFailureStaysReady(x: UserOracle) returns (c: Cluster)
    requires UserWell(x) && x.creds.ca.CAFails?
    ensures Coupled(c) && USR in c.users && c.users[USR].status.Ready()
    ensures var st := ReconcileUser(c, USR, x); st.exit == CAUnavailable && st.status.Ready()
  {
    c := UserWorld(AUser(ByAccount, "55555", "666666", Labelled), AnAccount(Up), []);
    UserWorldReaches("55555", "666666", Labelled, x);
    UserWorldJwtSettled("666666", x);
    hide Coupled, Fixpoint.ReachesJwt, Fixpoint.JwtSettled, UserSecrets, FindAccount, LoadIssuerSeed, Fixpoint.UserIssuer, UserSeedStage, UserStages, StoreUserJWT;
    var s := c.users[USR].status.InitializeConditions();
    Fixpoint.StagesReachJwt(c, USR, s, x);
    Fixpoint.JwtSettledPasses(c, USR, Fixpoint.StatusAtJwt(c, USR, s, x), UsrSeed, AccSeed, AnAccount(Up), x);
    Users.UserStepMeaning(c, USR, x);
  }

  // The account behind a signing key is not ready.
  const AKey: SigningKey :=
    SigningKey(Key("n", "key"), "333", map[], SigningKeySpec(KindAccount, "acc", "k"),
               SigningKeyStatus(Up, Up, Some(KeyPair(PublicKey(AccSeed), "22")), Some(TypedRef(KindAccount, "n", "acc", "22"))))

  lemma UnreadyAccountStaysReady(x: UserOracle) returns (c: Cluster)
    requires UserWell(x)
    ensures Coupled(c) && USR in c.users && c.users[USR].status.Ready()
    ensures var st := ReconcileUser(c, USR, x); st.exit == AccountNotReady && st.status.Ready()
  {
    c := UserWorld(AUser(BySigningKey, "55555", "666666", Labelled), AnAccount(Missing), [AKey]);
    KeyWorldFinds(c);
    hide Coupled, UserSecrets, ResolveIssuer, FindAccount, UserSeedStage, UserLabelStage;
    UserSeedPasses(c, x);
    Users.UserStepMeaning(c, USR, x);
  }

  lemma KeyWorldFinds(c: Cluster)
    requires c == UserWorld(AUser(BySigningKey, "55555", "666666", Labelled), AnAccount(Missing), [AKey])
    ensures Coupled(c) && ResolveIssuer(c, BySigningKey, "n", true) == Ok(IssuerSigningKey(Key("n", "key"), AKey))
    ensures FindAccount(c, IssuerSigningKey(Key("n", "key"), AKey), true).NotMarked?
  {
    hide UserSecrets;
    assert Coupled(c);
    assert GetSigningKey([AKey], Key("n", "key")) == Some(AKey);
  }
}
