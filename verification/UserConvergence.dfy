/**
 A User whose surroundings are in place completes after finitely many reconciles.
 */
module UserConvergence {
  import opened Texts
  import opened Lifecycles
  import opened Errors
  import opened Secrets
  import opened ClusterState
  import opened SecretStages
  import opened UserController
  import opened UserTheorems
  import opened UserFixpoint

  /******* The surroundings *******/

  function Issuing(c: Cluster, k: Key): (r: Res<KeyPairable>)
    requires Coupled(c) && k in c.users
    ensures r.Ok? && r.value.IssuerSigningKey? ==> r.value.signingKey.status.Coupled()
  {
    ResolveIssuer(c, c.users[k].spec.issuer, k.ns, true)
  }

  predicate Admitted(c: Cluster, k: Key, account: Key, acc: Account)
    requires k in c.users
  {
    && ValidateSelectors(c, account.ns, acc.spec.usersNamespaceSelector, acc.spec.usersSelector, k.ns, c.users[k].labels, true).Ok?
    && (acc.spec.usersSelector.Some? ==> BlindTo(acc.spec.usersSelector.value, LabelAccountName))
  }

  // The issuer, its Account and its seed are there, and the Account admits the User.
  predicate Surrounded(c: Cluster, k: Key)
    requires Coupled(c) && k in c.users
  {
    var issuer := Issuing(c, k);
    && issuer.Ok?
    && var found := FindAccount(c, issuer.value, true);
    && found.FoundAccount? && Admitted(c, k, found.key, found.account)
    && issuer.value.GetKeyPair().Some? && LoadIssuerSeed(c, issuer.value, PrefixAccount, true).Ok?
  }

  function FoundFor(c: Cluster, k: Key): (f: AccountFound)
    requires Coupled(c) && k in c.users && Surrounded(c, k)
    ensures f.FoundAccount?
  {
    FindAccount(c, Issuing(c, k).value, true)
  }

  function SignerFor(c: Cluster, k: Key): Seed
    requires Coupled(c) && k in c.users && Surrounded(c, k)
  {
    LoadIssuerSeed(c, Issuing(c, k).value, PrefixAccount, true).value
  }

  function IssuerSeedKey(c: Cluster, k: Key): Key
    requires Coupled(c) && k in c.users && Surrounded(c, k)
  {
    Key(Issuing(c, k).value.key.ns, Issuing(c, k).value.GetKeyPair().value.seedSecretName)
  }

  predicate Controllable(c: Cluster, k: Key, q: Key)
    requires k in c.users && q in c.secrets
  {
    SetController(UserOwner(k, c.users[k]), c.secrets[q].owners).Some?
  }

  // Nobody else holds the names of the User's secrets.
  predicate SeedFree(c: Cluster, k: Key)
    requires k in c.users
  {
    var q := UserSeedKey(c, k);
    q in c.secrets ==> SeedKey in c.secrets[q].data && c.secrets[q].data[SeedKey].SeedBlob? && Controllable(c, k, q)
  }

  predicate JwtFree(c: Cluster, k: Key)
    requires k in c.users
  {
    var q := UserJwtKey(c, k);
    q in c.secrets ==>
      if JWTKey in c.secrets[q].data then Controllable(c, k, q)
      else OwnedBy(c.secrets[q], c.users[k].uid) && c.secrets[q].finalizers == {}
  }

  predicate CredsFree(c: Cluster, k: Key)
    requires k in c.users
  {
    UserCredsKey(c, k) in c.secrets ==> Controllable(c, k, UserCredsKey(c, k))
  }

  predicate NamesApart(c: Cluster, k: Key)
    requires Coupled(c) && k in c.users && Surrounded(c, k)
  {
    var q0, q1, q2, q3 := IssuerSeedKey(c, k), UserSeedKey(c, k), UserJwtKey(c, k), UserCredsKey(c, k);
    q0 != q1 && q0 != q2 && q0 != q3 && q1 != q2 && q1 != q3 && q2 != q3
  }

  ghost predicate Setting(c: Cluster, k: Key) {
    && Coupled(c) && k in c.users && Surrounded(c, k) && NamesApart(c, k)
    && SeedFree(c, k) && JwtFree(c, k) && CredsFree(c, k)
  }

  // Every call succeeds, and the CA reads the same each time.
  predicate Succeeds(x: UserOracle, ca: CAOutcome) {
    && x.fetchOk && x.updateOk && x.issuerOk && x.ownerOk && x.namespaceOk && x.issuerSeedOk && x.encodeOk
    && x.seed.getOk && x.seed.newKey.Some? && x.seed.createOk && x.seed.updateOk
    && x.jwt.getOk && x.jwt.deleteOk && x.jwt.createOk && x.jwt.update == Updated
    && x.creds == CredsOracle(ca, true, true, true, true) && !ca.CAFails?
    && x.status == StatusStored
  }

  /******* The measure *******/

  predicate SeedDone(c: Cluster, k: Key)
    requires k in c.users
  {
    SeedBuilt(c.secrets, UserOwner(k, c.users[k]), c.users[k].spec.seedSecretName, false)
  }

  function SeedOf(c: Cluster, k: Key): Seed
    requires k in c.users && SeedDone(c, k)
  {
    c.secrets[UserSeedKey(c, k)].data[SeedKey].seed
  }

  function PairOf(c: Cluster, k: Key): KeyPair
    requires k in c.users && SeedDone(c, k)
  {
    KeyPair(PublicKey(SeedOf(c, k)), c.users[k].spec.seedSecretName)
  }

  predicate LabelDone(c: Cluster, k: Key)
    requires Coupled(c) && k in c.users && Surrounded(c, k)
  {
    AccountLabel(c.users[k].labels) == FoundFor(c, k).key.name
  }

  predicate JwtDone(c: Cluster, k: Key)
    requires Coupled(c) && k in c.users && Surrounded(c, k) && SeedDone(c, k)
  {
    && UserJwtKey(c, k) in c.secrets
    && Stores(c.secrets[UserJwtKey(c, k)], DueUserClaims(c, k, PairOf(c, k), FoundFor(c, k).account, SignerFor(c, k)))
  }

  function Formatted(c: Cluster, k: Key, base: Secret, ca: CAOutcome): Option<Secret>
    requires Coupled(c) && k in c.users && Surrounded(c, k) && SeedDone(c, k) && JwtDone(c, k)
  {
    BuildCredsSecret(base, UserOwner(k, c.users[k]), c.secrets[UserJwtKey(c, k)].data[JWTKey].jwt, SeedBlob(SeedOf(c, k)), CABlob(ca))
  }

  predicate CredsDone(c: Cluster, k: Key, ca: CAOutcome)
    requires Coupled(c) && k in c.users && Surrounded(c, k) && SeedDone(c, k) && JwtDone(c, k)
  {
    && UserCredsKey(c, k) in c.secrets
    && Formatted(c, k, c.secrets[UserCredsKey(c, k)], ca) == Some(c.secrets[UserCredsKey(c, k)])
  }

  // How many of seed secret, label, JWT secret and credentials may still have to be written.
  function Rank(c: Cluster, k: Key, ca: CAOutcome): nat
    requires Coupled(c) && k in c.users && Surrounded(c, k)
  {
    if !SeedDone(c, k) then 4
    else if !LabelDone(c, k) then 3
    else if !JwtDone(c, k) then 2
    else if !CredsDone(c, k, ca) then 1
    else 0
  }

  /******* Steps stay in the setting *******/

  // Only this User's labels and status and secrets other than its issuer's seed differ.
  predicate Beside(c: Cluster, k: Key, c': Cluster) {
    && k in c.users && k in c'.users
    && c' == c.(users := c'.users, secrets := c'.secrets)
    && c'.users.Keys == c.users.Keys
    && c'.users[k].uid == c.users[k].uid && c'.users[k].spec == c.users[k].spec
    && SameBut(c.users[k].labels, c'.users[k].labels, LabelAccountName)
  }

  lemma IssuingKept(c: Cluster, k: Key, c': Cluster)
    requires Coupled(c) && Coupled(c') && Beside(c, k, c')
    ensures Issuing(c', k) == Issuing(c, k)
  {
    hide Coupled, KeyPairable.Ready, SameBut;
  }

  lemma FoundKept(c: Cluster, k: Key, c': Cluster)
    requires Coupled(c) && Coupled(c') && Beside(c, k, c') && Surrounded(c, k)
    ensures FindAccount(c', Issuing(c, k).value, true) == FindAccount(c, Issuing(c, k).value, true)
    ensures Admitted(c', k, FoundFor(c, k).key, FoundFor(c, k).account)
  {
    hide Coupled, Issuing, LoadIssuerSeed, SameBut, BlindTo, Matches;
    var acc := FoundFor(c, k).account;
    if acc.spec.usersSelector.Some? {
      BlindMatches(acc.spec.usersSelector.value, c.users[k].labels, c'.users[k].labels, LabelAccountName);
    }
    assert FindAccount(c', Issuing(c, k).value, true) == FindAccount(c, Issuing(c, k).value, true);
    hide FindAccount;
  }

  lemma SurroundedKept(c: Cluster, k: Key, c': Cluster)
    requires Coupled(c) && Coupled(c') && Beside(c, k, c') && Surrounded(c, k)
    requires SameAt(c.secrets, c'.secrets, IssuerSeedKey(c, k))
    ensures Surrounded(c', k)
    ensures FoundFor(c', k) == FoundFor(c, k) && SignerFor(c', k) == SignerFor(c, k) && IssuerSeedKey(c', k) == IssuerSeedKey(c, k)
  {
    hide Coupled, Admitted, FindAccount, SameBut, CheckIssuerSeed;
    IssuingKept(c, k, c');
    FoundKept(c, k, c');
    hide Issuing;
  }

  /******* What a step plans *******/

  // When its status is stored, a User ends as its stages planned.
  lemma ReconcileShape(c: Cluster, k: Key, x: UserOracle)
    requires Coupled(c) && k in c.users && x.fetchOk && x.status == StatusStored
    ensures var p := UserStages(c, k, c.users[k].status.InitializeConditions(), x);
            var st := ReconcileUser(c, k, x);
            && st.exit == p.exit && st.result == p.result && st.error == p.error && st.status == p.status && Coupled(st.c)
            && k in st.c.users && st.c.users[k] == c.users[k].(labels := p.labels, status := p.status)
            && st.c.secrets == p.store
            && (p.status == c.users[k].status && p.writes == [] ==> st.writes == [])
            && (p.status == c.users[k].status && p.labels == c.users[k].labels && p.store == c.secrets ==> st.c == c)
            && (SameBut(c.users[k].labels, p.labels, LabelAccountName) ==> Beside(c, k, st.c))
  {
    hide UserStages, Coupled, Granted, CredsAgree, UserStatus.Coupled, UserStatus.Ready, RestTrue;
    UserStepMeaning(c, k, x);
    assert c.users[k := c.users[k]] == c.users;
  }

  lemma SeedSucceeds(c: Cluster, k: Key, x: UserOracle)
    requires k in c.users && SeedFree(c, k)
    requires x.seed.getOk && x.seed.newKey.Some? && x.seed.createOk && x.seed.updateOk
    ensures UserSeedStage(c, k, x).SeedReady?
    ensures UserSeedStage(c, k, x).wrote <==> !SeedDone(c, k)
    ensures SeedDone(c, k) ==> UserSeedStage(c, k, x) == SeedReady(c.secrets, PairOf(c, k), SeedOf(c, k), false)
  {
    if UserSeedStage(c, k, x).SeedReady? {
      SeedStageMeaning(c.secrets, UserOwner(k, c.users[k]), c.users[k].spec.seedSecretName, PrefixUser, false, x.seed);
    }
    if SeedDone(c, k) {
      SeedStageSettled(c.secrets, UserOwner(k, c.users[k]), c.users[k].spec.seedSecretName, PrefixUser, false, x.seed);
    }
  }

  lemma JwtSucceeds(c: Cluster, k: Key, want: Claims, x: UserOracle)
    requires k in c.users && JwtFree(c, k)
    requires x.jwt.getOk && x.jwt.deleteOk && x.jwt.createOk && x.jwt.update == Updated
    ensures UserJwtOut(c, k, want, x).result.Ok?
    ensures var store := UserJwtOut(c, k, want, x).store;
            && UserJwtKey(c, k) in store && JWTKey in store[UserJwtKey(c, k)].data
            && SetController(UserOwner(k, c.users[k]), store[UserJwtKey(c, k)].owners).Some?
  {
    var o := UserOwner(k, c.users[k]);
    UpsertMeaning([], RefOf(o));
    if UserJwtKey(c, k) in c.secrets {
      UpsertMeaning(c.secrets[UserJwtKey(c, k)].owners, RefOf(o));
    }
  }

  // Once the seed is built, the label is reached with the cluster's own account and signer.
  lemma LabelReached(c: Cluster, k: Key, x: UserOracle, ca: CAOutcome)
    requires Setting(c, k) && Succeeds(x, ca) && SeedDone(c, k)
    ensures UserIssuer(c, k, x) == Issuing(c, k)
    ensures ReachesLabel(c, k, x) && (LabelDone(c, k) ==> ReachesJwt(c, k, x))
    ensures UserSeedStage(c, k, x) == SeedReady(c.secrets, PairOf(c, k), SeedOf(c, k), false)
  {
    hide NamesApart, JwtFree, CredsFree, Coupled, FindAccount, ValidateSelectors, LoadIssuerSeed, ResolveIssuer, SeedBuilt, AccountLabel;
    SeedSucceeds(c, k, x);
    hide UserSeedStage, SeedFree;
  }

  lemma SeedPlan(c: Cluster, k: Key, s: UserStatus, x: UserOracle, ca: CAOutcome)
    requires Setting(c, k) && Succeeds(x, ca) && !SeedDone(c, k)
    ensures UserSeedStage(c, k, x).SeedReady?
    ensures var p := UserStages(c, k, s, x);
            && p.exit == UserSeedWritten && p.result == Requeue && p.error == None
            && p.store == UserSeedStage(c, k, x).store && p.labels == c.users[k].labels
  {
    hide Surrounded, NamesApart, JwtFree, CredsFree, Coupled, UserIssuerStage, SeedDone;
    SeedSucceeds(c, k, x);
    hide UserSeedStage, SeedFree;
  }

  lemma LabelPlan(c: Cluster, k: Key, s: UserStatus, x: UserOracle, ca: CAOutcome)
    requires Setting(c, k) && Succeeds(x, ca) && SeedDone(c, k) && !LabelDone(c, k)
    ensures var p := UserStages(c, k, s, x);
            && p.exit == UserLabelWritten && p.result == Requeue && p.error == None
            && p.store == c.secrets && p.labels == c.users[k].labels[LabelAccountName := FoundFor(c, k).key.name]
  {
    LabelReached(c, k, x, ca);
    hide Setting, SeedDone, ReachesLabel, UserStages, UserSeedStage, FindAccount, Issuing, UserJWTStage, AccountLabel;
    StagesReachLabel(c, k, s, x);
  }

  function WantAt(c: Cluster, k: Key, s: UserStatus, x: UserOracle): Claims
    requires Coupled(c) && k in c.users && ReachesJwt(c, k, x)
  {
    WantedUserClaims(c, k, StatusAtJwt(c, k, s, x), AccountAtJwt(c, k, x), SignerAtJwt(c, k, x), x)
  }

  // What is wanted is what is due, up to stamps.
  lemma WantIsDue(c: Cluster, k: Key, s: UserStatus, x: UserOracle, ca: CAOutcome)
    requires Setting(c, k) && Succeeds(x, ca) && SeedDone(c, k) && LabelDone(c, k)
    ensures ReachesJwt(c, k, x) && StatusAtJwt(c, k, s, x).keyPair == Some(PairOf(c, k))
    ensures AccountAtJwt(c, k, x) == FoundFor(c, k).account && SignerAtJwt(c, k, x) == SignerFor(c, k)
    ensures Blanked(WantAt(c, k, s, x)) == Blanked(DueUserClaims(c, k, PairOf(c, k), FoundFor(c, k).account, SignerFor(c, k)))
  {
    LabelReached(c, k, x, ca);
    hide Setting, SeedDone, ReachesLabel, UserSeedStage, FindAccount, LoadIssuerSeed, Issuing, AccountLabel;
  }

  lemma JwtPlan(c: Cluster, k: Key, s: UserStatus, x: UserOracle, ca: CAOutcome)
    requires Setting(c, k) && Succeeds(x, ca) && SeedDone(c, k) && LabelDone(c, k) && !JwtDone(c, k)
    ensures ReachesJwt(c, k, x)
    ensures var p := UserStages(c, k, s, x);
            && p.exit == UserJWTWritten && p.result == Requeue && p.error == None
            && p.store == UserJwtOut(c, k, WantAt(c, k, s, x), x).store && p.labels == c.users[k].labels
  {
    WantIsDue(c, k, s, x, ca);
    hide Surrounded, NamesApart, CredsFree, SeedFree, Coupled, SeedDone, ReachesJwt, UserStages, UserSeedStage, FindAccount, LoadIssuerSeed, Issuing;
    hide StatusAtJwt, AccountAtJwt, SignerAtJwt, WantedUserClaims, DueUserClaims, Blanked, JwtStage, UserCredsStage, UserStatus.Coupled, UserStatus.Ready, LabelDone;
    StagesReachJwt(c, k, s, x);
    var want := WantAt(c, k, s, x);
    JwtSucceeds(c, k, want, x);
    JwtStageQuietIff(c.secrets, UserOwner(k, c.users[k]), c.users[k].spec.jwtSecretName, want, x.jwt);
  }

  lemma CredsPlan(c: Cluster, k: Key, s: UserStatus, x: UserOracle, ca: CAOutcome)
    requires Setting(c, k) && Succeeds(x, ca) && SeedDone(c, k) && LabelDone(c, k) && JwtDone(c, k) && !CredsDone(c, k, ca)
    ensures var p := UserStages(c, k, s, x);
            var base := if UserCredsKey(c, k) in c.secrets then c.secrets[UserCredsKey(c, k)] else EmptySecret;
            && p.exit == CredsWritten && p.result == Requeue && p.error == None && p.labels == c.users[k].labels
            && Formatted(c, k, base, ca).Some?
            && p.store == c.secrets[UserCredsKey(c, k) := Formatted(c, k, base, ca).value]
  {
    hide Surrounded, NamesApart, SeedFree, JwtFree, Coupled, SeedDone, ReachesJwt, UserStages, UserSeedStage, FindAccount, LoadIssuerSeed, Issuing;
    hide StatusAtJwt, AccountAtJwt, SignerAtJwt, DueUserClaims, StoreUserJWT, UserStatus.Coupled, UserStatus.Ready, LabelDone, ReachesLabel, Stores;
    WantIsDue(c, k, s, x, ca);
    LabelReached(c, k, x, ca);
    StagesReachJwt(c, k, s, x);
    JwtSettledPasses(c, k, StatusAtJwt(c, k, s, x), SeedOf(c, k), SignerAtJwt(c, k, x), AccountAtJwt(c, k, x), x);
    assert SetController(UserOwner(k, c.users[k]), []).Some?;
    hide SetController;
  }

  /******* Each write lowers the measure *******/

  lemma SettingKept(c: Cluster, k: Key, c': Cluster)
    requires Setting(c, k) && Coupled(c') && Beside(c, k, c') && SameAt(c.secrets, c'.secrets, IssuerSeedKey(c, k))
    requires SeedFree(c', k) && JwtFree(c', k) && CredsFree(c', k)
    ensures Setting(c', k) && FoundFor(c', k) == FoundFor(c, k) && SignerFor(c', k) == SignerFor(c, k)
  {
    SurroundedKept(c, k, c');
    hide Surrounded, FoundFor, SignerFor, IssuerSeedKey, SeedFree, JwtFree, CredsFree, Coupled;
  }

  // A secret that did not change is as usable as before.
  lemma SecretsKept(c: Cluster, k: Key, c': Cluster)
    requires Beside(c, k, c')
    ensures SameAt(c.secrets, c'.secrets, UserSeedKey(c, k)) ==>
              (SeedFree(c', k) <==> SeedFree(c, k)) && (SeedDone(c', k) <==> SeedDone(c, k))
    ensures SameAt(c.secrets, c'.secrets, UserSeedKey(c, k)) && SeedDone(c, k) && SeedDone(c', k) ==> PairOf(c', k) == PairOf(c, k) && SeedOf(c', k) == SeedOf(c, k)
    ensures SameAt(c.secrets, c'.secrets, UserJwtKey(c, k)) ==> (JwtFree(c', k) <==> JwtFree(c, k))
    ensures SameAt(c.secrets, c'.secrets, UserCredsKey(c, k)) ==> (CredsFree(c', k) <==> CredsFree(c, k))
  {
    hide BuildSeedSecret, SetController, SameBut;
  }

  lemma SeedDoneIsFree(c: Cluster, k: Key)
    requires k in c.users && SeedDone(c, k)
    ensures SeedFree(c, k)
  {
  }

  // The measure went down and the reconcile asked for another.
  ghost predicate Lowers(c: Cluster, k: Key, st: UserStep, ca: CAOutcome) {
    && Setting(c, k) && Setting(st.c, k) && Rank(st.c, k, ca) < Rank(c, k, ca)
    && st.result == Requeue && st.error == None
  }

  lemma SeedStep(c: Cluster, k: Key, x: UserOracle, ca: CAOutcome)
    requires Setting(c, k) && Succeeds(x, ca) && !SeedDone(c, k)
    ensures Lowers(c, k, ReconcileUser(c, k, x), ca)
  {
    hide Surrounded, NamesApart, SeedFree, JwtFree, CredsFree, Coupled, SeedDone, ReconcileUser, UserStages, UserSeedStage;
    ReconcileShape(c, k, x);
    SeedPlan(c, k, c.users[k].status.InitializeConditions(), x, ca);
    SeedStageKeepsSetting(c, k, x, ReconcileUser(c, k, x).c);
    hide Setting, LabelDone, JwtDone, CredsDone;
  }

  lemma SeedStageKeepsSetting(c: Cluster, k: Key, x: UserOracle, c': Cluster)
    requires Setting(c, k) && Coupled(c') && Beside(c, k, c')
    requires UserSeedStage(c, k, x).SeedReady? && c'.secrets == UserSeedStage(c, k, x).store
    ensures Setting(c', k) && SeedDone(c', k)
  {
    hide Surrounded, Coupled, SeedStage, SameBut, SeedFree, JwtFree, CredsFree, IssuerSeedKey;
    SeedStageMeaning(c.secrets, UserOwner(k, c.users[k]), c.users[k].spec.seedSecretName, PrefixUser, false, x.seed);
    assert SeedDone(c', k);
    SeedDoneIsFree(c', k);
    hide SeedBuilt, SeedDone;
    SecretsKept(c, k, c');
    SettingKept(c, k, c');
  }

  lemma LabelStep(c: Cluster, k: Key, x: UserOracle, ca: CAOutcome)
    requires Setting(c, k) && Succeeds(x, ca) && SeedDone(c, k) && !LabelDone(c, k)
    ensures Lowers(c, k, ReconcileUser(c, k, x), ca)
  {
    hide Surrounded, NamesApart, SeedFree, JwtFree, CredsFree, Coupled, SeedDone, ReconcileUser, UserStages, FoundFor, IssuerSeedKey;
    ReconcileShape(c, k, x);
    LabelPlan(c, k, c.users[k].status.InitializeConditions(), x, ca);
    var c' := ReconcileUser(c, k, x).c;
    SecretsKept(c, k, c');
    SettingKept(c, k, c');
    assert LabelDone(c', k);
    hide Setting, LabelDone, JwtDone, CredsDone;
  }

  lemma JwtStep(c: Cluster, k: Key, x: UserOracle, ca: CAOutcome)
    requires Setting(c, k) && Succeeds(x, ca) && SeedDone(c, k) && LabelDone(c, k) && !JwtDone(c, k)
    ensures Lowers(c, k, ReconcileUser(c, k, x), ca)
  {
    hide Surrounded, NamesApart, SeedFree, JwtFree, CredsFree, Coupled, SeedDone, JwtDone, LabelDone, ReconcileUser, UserStages, UserJwtOut;
    hide ReachesJwt, FoundFor;
    var s := c.users[k].status.InitializeConditions();
    ReconcileShape(c, k, x);
    JwtPlan(c, k, s, x, ca);
    JwtStageKeepsSetting(c, k, s, x, ca, ReconcileUser(c, k, x).c);
    hide Setting, CredsDone;
  }

  lemma JwtStageKeepsSetting(c: Cluster, k: Key, s: UserStatus, x: UserOracle, ca: CAOutcome, c': Cluster)
    requires Setting(c, k) && Succeeds(x, ca) && SeedDone(c, k) && LabelDone(c, k) && ReachesJwt(c, k, x)
    requires Coupled(c') && Beside(c, k, c') && c'.users[k].labels == c.users[k].labels
    requires c'.secrets == UserJwtOut(c, k, WantAt(c, k, s, x), x).store
    ensures Setting(c', k) && SeedDone(c', k) && LabelDone(c', k) && JwtDone(c', k)
  {
    var want := WantAt(c, k, s, x);
    WantIsDue(c, k, s, x, ca);
    hide Surrounded, Coupled, JwtStage, SameBut, SeedFree, CredsFree, IssuerSeedKey, SeedDone, ReachesJwt, WantAt, FoundFor, SignerFor, DueUserClaims, SetController;
    var o, name := UserOwner(k, c.users[k]), c.users[k].spec.jwtSecretName;
    JwtSucceeds(c, k, want, x);
    JwtStageMeaning(c.secrets, o, name, want, x.jwt);
    JwtOthersKept(c, k, want, x, UserSeedKey(c, k));
    JwtOthersKept(c, k, want, x, UserCredsKey(c, k));
    JwtOthersKept(c, k, want, x, IssuerSeedKey(c, k));
    assert JwtFree(c', k);
    hide JwtFree;
    SecretsKept(c, k, c');
    SettingKept(c, k, c');
    hide Setting;
    DueKept(c, k, c');
  }

  lemma JwtOthersKept(c: Cluster, k: Key, want: Claims, x: UserOracle, q: Key)
    requires k in c.users && q != UserJwtKey(c, k)
    ensures SameAt(c.secrets, UserJwtOut(c, k, want, x).store, q)
  {
  }

  // What is due depends on the spec, the pair, the account and the signer.
  lemma DueKept(c: Cluster, k: Key, c': Cluster)
    requires Beside(c, k, c')
    ensures forall pair, acc, signer :: DueUserClaims(c', k, pair, acc, signer) == DueUserClaims(c, k, pair, acc, signer)
  {
    hide UserClaimsOf, SameBut;
  }

  lemma CredsStep(c: Cluster, k: Key, x: UserOracle, ca: CAOutcome)
    requires Setting(c, k) && Succeeds(x, ca) && SeedDone(c, k) && LabelDone(c, k) && JwtDone(c, k) && !CredsDone(c, k, ca)
    ensures Lowers(c, k, ReconcileUser(c, k, x), ca)
  {
    hide Surrounded, NamesApart, SeedFree, JwtFree, CredsFree, Coupled, SeedDone, JwtDone, LabelDone, ReconcileUser, UserStages, Formatted, FoundFor;
    ReconcileShape(c, k, x);
    CredsPlan(c, k, c.users[k].status.InitializeConditions(), x, ca);
    CredsKeepSetting(c, k, ca, ReconcileUser(c, k, x).c);
    hide Setting, CredsDone;
  }

  lemma CredsKeepSetting(c: Cluster, k: Key, ca: CAOutcome, c': Cluster)
    requires Setting(c, k) && SeedDone(c, k) && LabelDone(c, k) && JwtDone(c, k)
    requires Coupled(c') && Beside(c, k, c') && c'.users[k].labels == c.users[k].labels
    requires var base := if UserCredsKey(c, k) in c.secrets then c.secrets[UserCredsKey(c, k)] else EmptySecret;
             Formatted(c, k, base, ca).Some? && c'.secrets == c.secrets[UserCredsKey(c, k) := Formatted(c, k, base, ca).value]
    ensures Setting(c', k) && SeedDone(c', k) && LabelDone(c', k) && JwtDone(c', k) && CredsDone(c', k, ca)
  {
    hide Surrounded, Coupled, SameBut, SeedFree, JwtFree, IssuerSeedKey, SeedDone, FoundFor, SignerFor, DueUserClaims, SetController, BuildCredsSecret;
    hide Formatted, Stores;
    var base := if UserCredsKey(c, k) in c.secrets then c.secrets[UserCredsKey(c, k)] else EmptySecret;
    FormattedRebuilds(c, k, base, ca);
    assert CredsFree(c', k);
    hide CredsFree;
    SecretsKept(c, k, c');
    SettingKept(c, k, c');
    hide Setting;
    DueKept(c, k, c');
    assert JwtDone(c', k);
    FormattedKept(c, k, c', Formatted(c, k, base, ca).value, ca);
  }

  lemma FormattedKept(c: Cluster, k: Key, c': Cluster, base: Secret, ca: CAOutcome)
    requires Coupled(c) && k in c.users && Surrounded(c, k) && SeedDone(c, k) && JwtDone(c, k)
    requires Coupled(c') && Beside(c, k, c') && Surrounded(c', k) && SeedDone(c', k) && JwtDone(c', k)
    requires SeedOf(c', k) == SeedOf(c, k) && c'.secrets[UserJwtKey(c, k)] == c.secrets[UserJwtKey(c, k)]
    ensures Formatted(c', k, base, ca) == Formatted(c, k, base, ca)
  {
    hide Coupled, Surrounded, SeedDone, JwtDone, BuildCredsSecret, SameBut;
  }

  lemma FormattedRebuilds(c: Cluster, k: Key, base: Secret, ca: CAOutcome)
    requires Coupled(c) && k in c.users && Surrounded(c, k) && SeedDone(c, k) && JwtDone(c, k) && Formatted(c, k, base, ca).Some?
    ensures Formatted(c, k, Formatted(c, k, base, ca).value, ca) == Formatted(c, k, base, ca)
    ensures SetController(UserOwner(k, c.users[k]), Formatted(c, k, base, ca).value.owners).Some?
  {
    hide Surrounded, Coupled, SeedDone, DueUserClaims;
    RebuildCredsSecret(base, UserOwner(k, c.users[k]), c.secrets[UserJwtKey(c, k)].data[JWTKey].jwt, SeedBlob(SeedOf(c, k)), CABlob(ca));
  }

  lemma Progress(c: Cluster, k: Key, x: UserOracle, ca: CAOutcome)
    requires Setting(c, k) && Succeeds(x, ca) && Rank(c, k, ca) > 0
    ensures Lowers(c, k, ReconcileUser(c, k, x), ca)
  {
    hide Succeeds, Surrounded, SeedDone, LabelDone, JwtDone, CredsDone, ReconcileUser, Lowers;
    if !SeedDone(c, k) {
      SeedStep(c, k, x, ca);
    } else if !LabelDone(c, k) {
      LabelStep(c, k, x, ca);
    } else if !JwtDone(c, k) {
      JwtStep(c, k, x, ca);
    } else {
      CredsStep(c, k, x, ca);
    }
  }

  // Nothing is left to do and the status says so.
  ghost predicate Finished(c: Cluster, k: Key, ca: CAOutcome) {
    && Setting(c, k) && Rank(c, k, ca) == 0
    && c.users[k].status == UserStatus(Up, Up, Up, Up, Up, Some(PairOf(c, k)), Some(FoundFor(c, k).key))
  }

  // At measure zero a reconcile completes and finishes the User; on a finished one it writes nothing.
  lemma Completes(c: Cluster, k: Key, x: UserOracle, ca: CAOutcome)
    requires Setting(c, k) && Succeeds(x, ca) && Rank(c, k, ca) == 0
    ensures var st := ReconcileUser(c, k, x);
            && st.exit == UserCompleted && st.result == Done && st.error == None && Finished(st.c, k, ca)
            && (Finished(c, k, ca) ==> st.writes == [] && st.c == c)
  {
    hide NamesApart, SeedFree, JwtFree, CredsFree, Coupled, ReconcileUser, UserStages, UserSettled, UserStatus.Coupled, UserStatus.Ready, Formatted;
    SettledAtZero(c, k, x, ca);
    FinalIsFinished(c, k, c.users[k].status.InitializeConditions(), x, ca);
    hide SeedDone, LabelDone, JwtDone, CredsDone, Surrounded, FinalStatus, FoundFor, PairOf;
    ReconcileShape(c, k, x);
    StagesSettle(c, k, c.users[k].status.InitializeConditions(), x);
    StatusKeepsRank(c, k, ca, ReconcileUser(c, k, x).c);
  }

  lemma FinalIsFinished(c: Cluster, k: Key, s: UserStatus, x: UserOracle, ca: CAOutcome)
    requires Setting(c, k) && Succeeds(x, ca) && SeedDone(c, k) && UserSettled(c, k, x)
    ensures FinalStatus(c, k, s, x) == UserStatus(Up, Up, Up, Up, Up, Some(PairOf(c, k)), Some(FoundFor(c, k).key))
  {
    LabelReached(c, k, x, ca);
    hide NamesApart, SeedFree, JwtFree, CredsFree, Coupled, Surrounded, SeedDone, UserSettled, ReachesLabel, FindAccount, Issuing, UserSeedStage, PairOf;
  }

  lemma SettledAtZero(c: Cluster, k: Key, x: UserOracle, ca: CAOutcome)
    requires Setting(c, k) && Succeeds(x, ca) && Rank(c, k, ca) == 0
    ensures UserSettled(c, k, x)
  {
    LabelReached(c, k, x, ca);
    hide NamesApart, SeedFree, JwtFree, CredsFree, Coupled, ResolveIssuer, FindAccount, LoadIssuerSeed, ValidateSelectors, AccountLabel;
    hide SeedBuilt, DueUserClaims, BuildCredsSecret, UserSeedStage;
  }

  lemma StatusKeepsRank(c: Cluster, k: Key, ca: CAOutcome, c': Cluster)
    requires Setting(c, k) && Rank(c, k, ca) == 0 && Coupled(c') && Beside(c, k, c')
    requires c'.secrets == c.secrets && c'.users[k].labels == c.users[k].labels
    ensures Setting(c', k) && Rank(c', k, ca) == 0 && PairOf(c', k) == PairOf(c, k) && FoundFor(c', k) == FoundFor(c, k)
  {
    hide NamesApart, SeedFree, JwtFree, CredsFree, Coupled, Surrounded, SeedDone, SameBut, FoundFor, SignerFor, IssuerSeedKey, DueUserClaims, BuildCredsSecret;
    SecretsKept(c, k, c');
    SettingKept(c, k, c');
    hide Setting;
    DueKept(c, k, c');
    assert JwtDone(c', k);
  }

  /******* Runs *******/

  function Reconciled(c: Cluster, k: Key, xs: seq<UserOracle>): Cluster
    requires Coupled(c)
    decreases |xs|
  {
    if xs == [] then c
    else
      UserStepMeaning(c, k, xs[0]);
      Reconciled(ReconcileUser(c, k, xs[0]).c, k, xs[1..])
  }

  // After more succeeding reconciles than the measure the User is finished, hence Ready;
  lemma {:induction false} UserConverges(c: Cluster, k: Key, xs: seq<UserOracle>, ca: CAOutcome)
    requires Setting(c, k) && (forall x :: x in xs ==> Succeeds(x, ca))
    requires |xs| > Rank(c, k, ca) || Finished(c, k, ca)
    ensures var end := Reconciled(c, k, xs);
            Finished(end, k, ca) && end.users[k].status.Ready()
    decreases |xs|
  {
    hide Rank, Surrounded, Succeeds, ReconcileUser, SeedFree, JwtFree, CredsFree, NamesApart, FoundFor;
    if xs != [] {
      UserStepMeaning(c, k, xs[0]);
      if Rank(c, k, ca) > 0 { Progress(c, k, xs[0], ca); } else { Completes(c, k, xs[0], ca); }
      UserConverges(ReconcileUser(c, k, xs[0]).c, k, xs[1..], ca);
    }
  }

  // and from then on no reconcile writes anything to the API server.
  lemma FinishedIsQuiet(c: Cluster, k: Key, x: UserOracle, ca: CAOutcome)
    requires Finished(c, k, ca) && Succeeds(x, ca)
    ensures var st := ReconcileUser(c, k, x);
            st.exit == UserCompleted && st.writes == [] && st.c == c && st.result == Done && st.error == None
  {
    hide Rank, Surrounded, Succeeds, ReconcileUser, SeedFree, JwtFree, CredsFree, NamesApart, FoundFor;
    Completes(c, k, x, ca);
  }
}
