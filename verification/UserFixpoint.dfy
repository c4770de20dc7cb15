/**
 When a reconcile of a User writes nothing, and that it then never does again.
 */
module UserFixpoint {
  import opened Texts
  import opened Lifecycles
  import opened Errors
  import opened Secrets
  import opened ClusterState
  import opened SecretStages
  import opened UserController
  import opened UserTheorems

  /******* Settled *******/

  function UserIssuer(c: Cluster, k: Key, x: UserOracle): (r: Res<KeyPairable>)
    requires Coupled(c) && k in c.users
    ensures r.Ok? && r.value.IssuerSigningKey? ==> r.value.signingKey.status.Coupled()
  {
    ResolveIssuer(c, c.users[k].spec.issuer, k.ns, x.issuerOk)
  }

  // The claims that a key pair, an account and a signer call for, without stamps.
  function DueUserClaims(c: Cluster, k: Key, pair: KeyPair, acc: Account, signer: Seed): Claims
    requires k in c.users
  {
    Stamped(UserClaimsOf(k.name, c.users[k].spec, NewUserStatus.MarkSeedSecretReady(pair), acc, signer), signer, 0, "")
  }

  // The JWT secret is current.
  predicate JwtSettled(c: Cluster, k: Key, pair: KeyPair, acc: Account, signer: Seed, x: UserOracle)
    requires k in c.users
  {
    && x.encodeOk && x.jwt.getOk && UserJwtKey(c, k) in c.secrets
    && Stores(c.secrets[UserJwtKey(c, k)], DueUserClaims(c, k, pair, acc, signer))
  }

  // The credentials are the formatting of the stored JWT and this seed.
  predicate CredsSettled(c: Cluster, k: Key, jwt: Jwt, seed: Seed, x: CredsOracle)
    requires k in c.users
  {
    && !x.ca.CAFails? && x.getOk && UserCredsKey(c, k) in c.secrets
    && BuildCreds(c.secrets[UserCredsKey(c, k)], UserOwner(k, c.users[k]), jwt, seed, x) == Some(c.secrets[UserCredsKey(c, k)])
  }

  // The account is found, admits the User and is recorded in its label.
  predicate AccountSettled(c: Cluster, k: Key, issuer: KeyPairable, x: UserOracle)
    requires k in c.users && (issuer.IssuerSigningKey? ==> issuer.signingKey.status.Coupled())
  {
    var found := FindAccount(c, issuer, x.ownerOk);
    && found.FoundAccount?
    && ValidateSelectors(c, found.key.ns, found.account.spec.usersNamespaceSelector, found.account.spec.usersSelector,
                         k.ns, c.users[k].labels, x.namespaceOk).Ok?
    && AccountLabel(c.users[k].labels) == found.key.name
    && LoadIssuerSeed(c, issuer, PrefixAccount, x.issuerSeedOk).Ok?
  }

  predicate UserSettled(c: Cluster, k: Key, x: UserOracle)
    requires Coupled(c) && k in c.users
  {
    var out := UserSeedStage(c, k, x);
    && out.SeedReady? && !out.wrote
    && UserIssuer(c, k, x).Ok?
    && var issuer := UserIssuer(c, k, x).value;
    && AccountSettled(c, k, issuer, x)
    && var acc, signer := FindAccount(c, issuer, x.ownerOk).account, LoadIssuerSeed(c, issuer, PrefixAccount, x.issuerSeedOk).value;
    && JwtSettled(c, k, out.keyPair, acc, signer, x)
    && CredsSettled(c, k, c.secrets[UserJwtKey(c, k)].data[JWTKey].jwt, out.seed, x.creds)
  }

  /******* Stage by stage *******/

  lemma CredsStageSettles(c: Cluster, k: Key, s: UserStatus, seed: Seed, jwt: Jwt, x: UserOracle)
    requires k in c.users
    ensures var p := UserCredsStage(c, k, s, seed, jwt, x);
            && (p.exit == UserCompleted <==> CredsSettled(c, k, jwt, seed, x.creds))
            && (p.exit == UserCompleted ==> p == StopUser(c, k, s.MarkCredentialsSecretReady(), UserCompleted, (Done, None)))
  {
    hide BuildCreds, UserStatus.Coupled, UserStatus.Ready;
  }

  lemma JwtStageSettles(c: Cluster, k: Key, s: UserStatus, seed: Seed, signer: Seed, acc: Account, x: UserOracle)
    requires k in c.users && s.keyPair.Some?
    ensures var p := StoreUserJWT(c, k, s, seed, signer, acc, x);
            && (p.exit == UserCompleted <==>
                  && JwtSettled(c, k, s.keyPair.value, acc, signer, x)
                  && CredsSettled(c, k, c.secrets[UserJwtKey(c, k)].data[JWTKey].jwt, seed, x.creds))
            && (p.exit == UserCompleted ==>
                  p == StopUser(c, k, s.MarkJWTSecretReady().MarkCredentialsSecretReady(), UserCompleted, (Done, None)))
  {
    hide UserStatus.Coupled, UserStatus.Ready, JwtStage, UserCredsStage, Verdict, MarkUserJWT, CredsSettled;
    var want := WantedUserClaims(c, k, s, acc, signer, x);
    var due := DueUserClaims(c, k, s.keyPair.value, acc, signer);
    assert Blanked(want) == Blanked(due);
    hide WantedUserClaims, DueUserClaims, Blanked;
    JwtStageQuietIff(c.secrets, UserOwner(k, c.users[k]), c.users[k].spec.jwtSecretName, want, x.jwt);
    if JwtSettled(c, k, s.keyPair.value, acc, signer, x) {
      CredsStageSettles(c, k, s.MarkJWTSecretReady(), seed, c.secrets[UserJwtKey(c, k)].data[JWTKey].jwt, x);
    }
  }

  // The stage succeeds without a write exactly when the JWT stored already is the wanted one.
  lemma JwtStageQuietIff(store: Store, o: Owner, name: string, want: Claims, x: JwtOracle)
    ensures var out := JwtStage(store, o, name, want, Signed(want), x);
            var key := Key(o.key.ns, name);
            && (out.result.Ok? && out.writes == [] <==> x.getOk && key in store && Stores(store[key], want))
            && (out.result.Ok? && out.writes == [] ==> out.store == store && out.result.value == store[key].data[JWTKey].jwt)
  {
  }

  // What the stages after the issuer come to.
  predicate IssuedSettled(c: Cluster, k: Key, pair: KeyPair, seed: Seed, issuer: KeyPairable, x: UserOracle)
    requires k in c.users && (issuer.IssuerSigningKey? ==> issuer.signingKey.status.Coupled())
  {
    && AccountSettled(c, k, issuer, x)
    && var acc, signer := FindAccount(c, issuer, x.ownerOk).account, LoadIssuerSeed(c, issuer, PrefixAccount, x.issuerSeedOk).value;
    && JwtSettled(c, k, pair, acc, signer, x)
    && CredsSettled(c, k, c.secrets[UserJwtKey(c, k)].data[JWTKey].jwt, seed, x.creds)
  }

  function SettledUserStatus(s: UserStatus, account: Key): UserStatus {
    s.MarkAccountResolved(account).MarkIssuerResolved().MarkJWTSecretReady().MarkCredentialsSecretReady()
  }

  lemma LabelStageSettles(c: Cluster, k: Key, s: UserStatus, seed: Seed, issuer: KeyPairable, key: Key, acc: Account, x: UserOracle)
    requires k in c.users && s.keyPair.Some?
    ensures var p, signer := UserLabelStage(c, k, s, seed, issuer, key, acc, x), LoadIssuerSeed(c, issuer, PrefixAccount, x.issuerSeedOk);
            && (p.exit == UserCompleted <==>
                  && AccountLabel(c.users[k].labels) == key.name && signer.Ok?
                  && JwtSettled(c, k, s.keyPair.value, acc, signer.value, x)
                  && CredsSettled(c, k, c.secrets[UserJwtKey(c, k)].data[JWTKey].jwt, seed, x.creds))
            && (p.exit == UserCompleted ==>
                  p == StopUser(c, k, s.MarkIssuerResolved().MarkJWTSecretReady().MarkCredentialsSecretReady(), UserCompleted, (Done, None)))
  {
    var signer := LoadIssuerSeed(c, issuer, PrefixAccount, x.issuerSeedOk);
    hide LoadIssuerSeed, StoreUserJWT, CredsSettled, AccountLabel, Verdict, UserStatus.Coupled, UserStatus.Ready, MarkUserJWT, MarkUserIssuer;
    if signer.Ok? {
      JwtStageSettles(c, k, s.MarkIssuerResolved(), seed, signer.value, acc, x);
    }
  }

  lemma AccountStageSettles(c: Cluster, k: Key, s: UserStatus, seed: Seed, issuer: KeyPairable, x: UserOracle)
    requires Coupled(c) && k in c.users && s.keyPair.Some? && (issuer.IssuerSigningKey? ==> issuer.signingKey.status.Coupled())
    ensures var p := UserAccountStage(c, k, s, seed, issuer, x);
            && (p.exit == UserCompleted <==> IssuedSettled(c, k, s.keyPair.value, seed, issuer, x))
            && (p.exit == UserCompleted ==>
                  p == StopUser(c, k, SettledUserStatus(s, FindAccount(c, issuer, x.ownerOk).key), UserCompleted, (Done, None)))
  {
    hide Coupled, FindAccount, ValidateSelectors, LoadIssuerSeed, UserLabelStage, CredsSettled, JwtSettled, AccountLabel, Verdict;
    hide UserStatus.Coupled, UserStatus.Ready, MarkAccount;
    var found := FindAccount(c, issuer, x.ownerOk);
    if found.FoundAccount? {
      LabelStageSettles(c, k, s.MarkAccountResolved(found.key), seed, issuer, found.key, found.account, x);
    }
  }

  // A reconcile completes exactly on a settled User.
  lemma StagesSettle(c: Cluster, k: Key, s: UserStatus, x: UserOracle)
    requires Coupled(c) && k in c.users
    ensures var p := UserStages(c, k, s, x);
            && (p.exit == UserCompleted <==> UserSettled(c, k, x))
            && (p.exit == UserCompleted ==> p == StopUser(c, k, FinalStatus(c, k, s, x), UserCompleted, (Done, None)))
  {
    hide UserSeedStage, FindAccount, LoadIssuerSeed, UserAccountStage, CredsSettled, JwtSettled, AccountSettled, Verdict;
    hide UserStatus.Coupled, UserStatus.Ready, MarkUserSeed, MarkUserIssuer;
    var out, issuer := UserSeedStage(c, k, x), UserIssuer(c, k, x);
    if issuer.Ok? {
      IssuerOfKeyCoupled(c, c.users[k].spec.issuer, k.ns, x.issuerOk);
    }
    hide Coupled, ResolveIssuer;
    if out.SeedReady? && !out.wrote && issuer.Ok? {
      AccountStageSettles(c, k, s.MarkSeedSecretReady(out.keyPair), out.seed, issuer.value, x);
    }
  }

  function FinalStatus(c: Cluster, k: Key, s: UserStatus, x: UserOracle): UserStatus
    requires Coupled(c) && k in c.users && UserSettled(c, k, x)
  {
    SettledUserStatus(s.MarkSeedSecretReady(UserSeedStage(c, k, x).keyPair), FindAccount(c, UserIssuer(c, k, x).value, x.ownerOk).key)
  }

  /******* How far a reconcile gets *******/

  // Seed, issuer and account are in order.
  predicate ReachesLabel(c: Cluster, k: Key, x: UserOracle)
    requires Coupled(c) && k in c.users
  {
    && UserSeedStage(c, k, x).SeedReady? && !UserSeedStage(c, k, x).wrote && UserIssuer(c, k, x).Ok?
    && var found := FindAccount(c, UserIssuer(c, k, x).value, x.ownerOk);
    && found.FoundAccount?
    && ValidateSelectors(c, found.key.ns, found.account.spec.usersNamespaceSelector, found.account.spec.usersSelector,
                         k.ns, c.users[k].labels, x.namespaceOk).Ok?
  }

  lemma StagesReachLabel(c: Cluster, k: Key, s: UserStatus, x: UserOracle)
    requires Coupled(c) && k in c.users && ReachesLabel(c, k, x)
    ensures var found := FindAccount(c, UserIssuer(c, k, x).value, x.ownerOk);
            UserStages(c, k, s, x) ==
              UserLabelStage(c, k, s.MarkSeedSecretReady(UserSeedStage(c, k, x).keyPair).MarkAccountResolved(found.key),
                             UserSeedStage(c, k, x).seed, UserIssuer(c, k, x).value, found.key, found.account, x)
  {
    hide Coupled, ResolveIssuer, FindAccount, ValidateSelectors, UserSeedStage, UserLabelStage, UserStatus.Coupled, UserStatus.Ready;
  }

  // Everything before the JWT secret is in order.
  predicate ReachesJwt(c: Cluster, k: Key, x: UserOracle)
    requires Coupled(c) && k in c.users
  {
    && x.fetchOk && x.encodeOk && UserSeedStage(c, k, x).SeedReady? && !UserSeedStage(c, k, x).wrote
    && UserIssuer(c, k, x).Ok? && AccountSettled(c, k, UserIssuer(c, k, x).value, x)
  }

  function AccountAtJwt(c: Cluster, k: Key, x: UserOracle): Account
    requires Coupled(c) && k in c.users && ReachesJwt(c, k, x)
  {
    FindAccount(c, UserIssuer(c, k, x).value, x.ownerOk).account
  }

  function SignerAtJwt(c: Cluster, k: Key, x: UserOracle): Seed
    requires Coupled(c) && k in c.users && ReachesJwt(c, k, x)
  {
    LoadIssuerSeed(c, UserIssuer(c, k, x).value, PrefixAccount, x.issuerSeedOk).value
  }

  function StatusAtJwt(c: Cluster, k: Key, s: UserStatus, x: UserOracle): UserStatus
    requires Coupled(c) && k in c.users && ReachesJwt(c, k, x)
  {
    s.MarkSeedSecretReady(UserSeedStage(c, k, x).keyPair)
     .MarkAccountResolved(FindAccount(c, UserIssuer(c, k, x).value, x.ownerOk).key).MarkIssuerResolved()
  }

  // Once it is reached, the plan is that of the JWT stage.
  lemma StagesReachJwt(c: Cluster, k: Key, s: UserStatus, x: UserOracle)
    requires Coupled(c) && k in c.users && ReachesJwt(c, k, x)
    ensures UserStages(c, k, s, x) ==
              StoreUserJWT(c, k, StatusAtJwt(c, k, s, x), UserSeedStage(c, k, x).seed, SignerAtJwt(c, k, x), AccountAtJwt(c, k, x), x)
  {
    hide Coupled, ResolveIssuer, FindAccount, ValidateSelectors, LoadIssuerSeed, UserSeedStage, StoreUserJWT, AccountLabel;
    hide UserStatus.Coupled, UserStatus.Ready;
  }

  // A current JWT is passed on as it is stored.
  lemma JwtSettledPasses(c: Cluster, k: Key, s: UserStatus, seed: Seed, signer: Seed, acc: Account, x: UserOracle)
    requires k in c.users && s.keyPair.Some? && JwtSettled(c, k, s.keyPair.value, acc, signer, x)
    ensures StoreUserJWT(c, k, s, seed, signer, acc, x) ==
              UserCredsStage(c, k, s.MarkJWTSecretReady(), seed, c.secrets[UserJwtKey(c, k)].data[JWTKey].jwt, x)
  {
    hide UserStatus.Coupled, UserStatus.Ready, JwtStage, UserCredsStage, Verdict, MarkUserJWT;
    var want, due := WantedUserClaims(c, k, s, acc, signer, x), DueUserClaims(c, k, s.keyPair.value, acc, signer);
    assert Blanked(want) == Blanked(due);
    hide WantedUserClaims, DueUserClaims, Blanked;
    JwtStageQuietIff(c.secrets, UserOwner(k, c.users[k]), c.users[k].spec.jwtSecretName, want, x.jwt);
  }

  /******* The fixpoint *******/

  // The clusters differ in this User's status only.
  predicate OnlyStatus(c: Cluster, c': Cluster, k: Key) {
    k in c.users && k in c'.users && c' == c.(users := c.users[k := c.users[k].(status := c'.users[k].status)])
  }

  lemma IssuerStays(c: Cluster, c': Cluster, k: Key, x: UserOracle)
    requires Coupled(c) && Coupled(c') && OnlyStatus(c, c', k)
    ensures UserIssuer(c', k, x) == UserIssuer(c, k, x)
  {
    hide Coupled, KeyPairable.Ready;
  }

  lemma AccountStays(c: Cluster, c': Cluster, k: Key, issuer: KeyPairable, x: UserOracle)
    requires OnlyStatus(c, c', k) && (issuer.IssuerSigningKey? ==> issuer.signingKey.status.Coupled())
    ensures FindAccount(c', issuer, x.ownerOk) == FindAccount(c, issuer, x.ownerOk)
    ensures LoadIssuerSeed(c', issuer, PrefixAccount, x.issuerSeedOk) == LoadIssuerSeed(c, issuer, PrefixAccount, x.issuerSeedOk)
    ensures AccountSettled(c', k, issuer, x) <==> AccountSettled(c, k, issuer, x)
  {
    assert FindAccount(c', issuer, x.ownerOk) == FindAccount(c, issuer, x.ownerOk);
    hide FindAccount, CheckIssuerSeed, Matches;
  }

  // Whether a User is settled does not depend on its status,
  lemma SettledStays(c: Cluster, k: Key, x: UserOracle, c': Cluster)
    requires Coupled(c) && OnlyStatus(c, c', k) && UserSettled(c, k, x) && Coupled(c')
    ensures UserSettled(c', k, x)
    ensures UserSeedStage(c', k, x) == UserSeedStage(c, k, x) && UserIssuer(c', k, x) == UserIssuer(c, k, x)
    ensures FindAccount(c', UserIssuer(c, k, x).value, x.ownerOk) == FindAccount(c, UserIssuer(c, k, x).value, x.ownerOk)
  {
    hide Coupled, SeedStage, BuildCreds, UserClaimsOf, AccountSettled, FindAccount, LoadIssuerSeed, UserIssuer;
    IssuerStays(c, c', k, x);
    AccountStays(c, c', k, UserIssuer(c, k, x).value, x);
  }

  // nor on the stamps of the next JWT.
  lemma SettledForAnyStamp(c: Cluster, k: Key, x: UserOracle, y: UserOracle)
    requires Coupled(c) && k in c.users && UserSettled(c, k, x) && y == x.(iat := y.iat, jti := y.jti)
    ensures UserSettled(c, k, y)
    ensures UserSeedStage(c, k, y) == UserSeedStage(c, k, x) && UserIssuer(c, k, y) == UserIssuer(c, k, x)
  {
    hide Coupled, SeedStage, BuildCreds, UserClaimsOf, FindAccount, LoadIssuerSeed, ResolveIssuer, ValidateSelectors;
  }

  // A reconcile that completes leaves the credentials equal to the formatting of the stored JWT and
  // seed, and the next one, whenever its JWT would be stamped, writes nothing.
  lemma CompletedIsQuiet(c: Cluster, k: Key, x: UserOracle, y: UserOracle)
    requires Coupled(c) && ReconcileUser(c, k, x).exit == UserCompleted && x.status == StatusStored
    requires y == x.(iat := y.iat, jti := y.jti)
    ensures Coupled(ReconcileUser(c, k, x).c)
    ensures var first := ReconcileUser(c, k, x);
            var second := ReconcileUser(first.c, k, y);
            second.exit == UserCompleted && second.writes == [] && second.c == first.c
  {
    UserStepMeaning(c, k, x);
    var s := c.users[k].status.InitializeConditions();
    StagesSettle(c, k, s, x);
    var c' := ReconcileUser(c, k, x).c;
    assert c'.users[k].status == FinalStatus(c, k, s, x);
    SettledRepeats(c, k, s, x, c', y);
  }

  lemma SettledRepeats(c: Cluster, k: Key, s: UserStatus, x: UserOracle, c': Cluster, y: UserOracle)
    requires Coupled(c) && k in c.users && UserSettled(c, k, x) && Coupled(c')
    requires k in c'.users && c' == c.(users := c.users[k := c.users[k].(status := FinalStatus(c, k, s, x))])
    requires x.fetchOk && y == x.(iat := y.iat, jti := y.jti)
    ensures var second := ReconcileUser(c', k, y);
            second.exit == UserCompleted && second.writes == [] && second.c == c'
  {
    hide UserSettled, Coupled, FindAccount, UserIssuer, UserSeedStage, UserStages, UserStatus.Coupled, UserStatus.Ready;
    SettledStays(c, k, x, c');
    SettledForAnyStamp(c', k, x, y);
    var t := c'.users[k].status;
    assert t.InitializeConditions() == t;
    StagesSettle(c', k, t, y);
    assert FinalStatus(c', k, t, y) == t;
    assert c'.users[k := c'.users[k]] == c'.users;
  }
}
