/**
 What every reconcile of a User keeps, for every combination of API outcomes.
 */
module UserTheorems {
  import opened Texts
  import opened Lifecycles
  import opened Errors
  import opened Secrets
  import opened ClusterState
  import opened SecretStages
  import opened UserController

  function UserJwtKey(c: Cluster, k: Key): Key
    requires k in c.users
  {
    Key(k.ns, c.users[k].spec.jwtSecretName)
  }

  function UserSeedKey(c: Cluster, k: Key): Key
    requires k in c.users
  {
    Key(k.ns, c.users[k].spec.seedSecretName)
  }

  function UserCredsKey(c: Cluster, k: Key): Key
    requires k in c.users
  {
    Key(k.ns, c.users[k].spec.credentialsSecretName)
  }

  // The secret holds the credentials made of this JWT and seed, and the CA that was found or an empty one.
  predicate HoldsCreds(store: Store, key: Key, jwt: Jwt, seed: Seed, ca: CAOutcome) {
    && key in store && CredsKey in store[key].data && store[key].data[CredsKey] == CredsBlob(jwt, SeedBlob(seed))
    && CAKey in store[key].data && store[key].data[CAKey] == (if ca.CAFound? then ca.ca else TextBlob(""))
  }

  // A failure is marked on the condition of the stage that failed.
  predicate FailsAt(e: UserExit, s: UserStatus) {
    match e
    case UserSeedFailed => !IsTrue(s.seed)
    case UserIssuerFailed => !IsTrue(s.issuer)
    case UserAccountFailed => !IsTrue(s.account)
    case UserJWTFailed => !IsTrue(s.jwt)
    case CredsFailed => !IsTrue(s.creds)
    case _ => true
  }

  lemma FailureNotReady(e: UserExit, s: UserStatus)
    requires FailsAt(e, s) && UserFailed(e)
    ensures !s.Ready()
  {
  }

  /******* Credentials *******/

  predicate CredsWell(c: Cluster, k: Key, s: UserStatus, seed: Seed, jwt: Jwt, ca: CAOutcome, p: UserPlan)
    requires k in c.users
  {
    && p.status.Coupled() && p.labels == c.users[k].labels
    && (p.exit == CAUnavailable || p.exit == CredsFailed || p.exit == CredsWritten || p.exit == UserCompleted)
    && (p.exit == CAUnavailable ==> p.status == s)
    && (p.exit == CredsFailed ==> FailsAt(p.exit, p.status))
    && (p.exit == CredsWritten || p.exit == UserCompleted ==>
          p.status == s.MarkCredentialsSecretReady() && HoldsCreds(p.store, UserCredsKey(c, k), jwt, seed, ca))
    && (p.exit == CredsWritten ==> p.store == c.secrets[UserCredsKey(c, k) := p.store[UserCredsKey(c, k)]])
    && (p.exit == CredsWritten ==> SeedKey !in p.store[UserCredsKey(c, k)].data)
    && (p.exit != CredsWritten ==> p.store == c.secrets)
    && (p.writes == [] <==> p.exit != CredsWritten)
  }

  lemma CredsStageMeaning(c: Cluster, k: Key, s: UserStatus, seed: Seed, jwt: Jwt, x: UserOracle)
    requires k in c.users && s.Coupled()
    ensures CredsWell(c, k, s, seed, jwt, x.creds.ca, UserCredsStage(c, k, s, seed, jwt, x))
  {
    hide CreateCreds, UpdateCreds, UserStatus.Coupled, UserStatus.Ready;
    CreateCredsMeaning(c, k, s, seed, jwt, x.creds);
    if UserCredsKey(c, k) in c.secrets { UpdateCredsMeaning(c, k, s, seed, jwt, x.creds); }
  }

  lemma CreateCredsMeaning(c: Cluster, k: Key, s: UserStatus, seed: Seed, jwt: Jwt, x: CredsOracle)
    requires k in c.users && s.Coupled()
    ensures CredsWell(c, k, s, seed, jwt, x.ca, CreateCreds(c, k, s, seed, jwt, x))
  {
    hide BuildCreds, HoldsCreds, UserStatus.Coupled, UserStatus.Ready;
    var built := BuildCreds(EmptySecret, UserOwner(k, c.users[k]), jwt, seed, x);
    if built.Some? {
      StoredCreds(c.secrets[UserCredsKey(c, k) := built.value], UserCredsKey(c, k), EmptySecret, UserOwner(k, c.users[k]), jwt, seed, x);
    }
  }

  lemma UpdateCredsMeaning(c: Cluster, k: Key, s: UserStatus, seed: Seed, jwt: Jwt, x: CredsOracle)
    requires k in c.users && s.Coupled() && UserCredsKey(c, k) in c.secrets
    ensures CredsWell(c, k, s, seed, jwt, x.ca, UpdateCreds(c, k, s, seed, jwt, x))
  {
    hide BuildCreds, HoldsCreds, UserStatus.Coupled, UserStatus.Ready;
    var o, q, got := UserOwner(k, c.users[k]), UserCredsKey(c, k), c.secrets[UserCredsKey(c, k)];
    var built := BuildCreds(got, o, jwt, seed, x);
    if built == Some(got) {
      StoredCreds(c.secrets, q, got, o, jwt, seed, x);
    } else if built.Some? {
      StoredCreds(c.secrets[q := built.value], q, got, o, jwt, seed, x);
    }
  }

  lemma StoredCreds(store: Store, q: Key, base: Secret, o: Owner, jwt: Jwt, seed: Seed, x: CredsOracle)
    requires q in store && BuildCreds(base, o, jwt, seed, x) == Some(store[q])
    ensures HoldsCreds(store, q, jwt, seed, x.ca) && SeedKey !in store[q].data
  {
    BuildCredsMeaning(base, o, jwt, seed, x);
  }

  lemma BuildCredsMeaning(base: Secret, o: Owner, jwt: Jwt, seed: Seed, x: CredsOracle)
    requires BuildCreds(base, o, jwt, seed, x).Some?
    ensures var t := BuildCreds(base, o, jwt, seed, x).value;
            && CredsKey in t.data && t.data[CredsKey] == CredsBlob(jwt, SeedBlob(seed)) && SeedKey !in t.data
            && CAKey in t.data && t.data[CAKey] == (if x.ca.CAFound? then x.ca.ca else TextBlob(""))
            && BuildCreds(t, o, jwt, seed, x) == Some(t) && SetController(o, base.owners).Some?
  {
    RebuildCredsSecret(base, o, jwt, SeedBlob(seed), CABlob(x.ca));
  }

  /******* Issuance *******/

  // The account a user JWT belongs to.
  function EffectiveAccount(claims: Claims): string
    requires claims.UserClaims?
  {
    if claims.issuerAccount != "" then claims.issuerAccount else claims.data.issuer
  }

  // What the spec says of permissions, limits and bearer token; permissions leave no room for the others.
  predicate Permits(claims: Claims, spec: UserSpec)
    requires claims.UserClaims?
  {
    match spec.permissions
    case Some(text) => claims.permissions == text && claims.limits == "" && !claims.bearerToken
    case None => claims.permissions == "" && claims.limits == spec.limits && (claims.bearerToken <==> spec.bearerToken == Some(true))
  }

  // Issued to this User and key pair by this signer on behalf of this account.
  predicate IssuedBy(claims: Claims, name: string, spec: UserSpec, pair: Option<KeyPair>, acc: Account, signer: Seed) {
    && claims.UserClaims? && claims.data.name == name && Permits(claims, spec)
    && pair.Some? && claims.data.subject == pair.value.publicKey
    && claims.data.issuer == PublicKey(signer)
    && (claims.issuerAccount == "" || acc.status.keyPair.Some?)
    && (acc.status.keyPair.Some? ==>
          var key := acc.status.keyPair.value.publicKey;
          claims.issuerAccount == (if key == PublicKey(signer) then "" else key) && (key != "" ==> EffectiveAccount(claims) == key))
  }

  // Limits and bearer token carry over exactly when no permissions are set or they are at their
  // defaults anyway.
  lemma LimitsCarryOverIff(name: string, spec: UserSpec, s: UserStatus, acc: Account, signer: Seed)
    ensures var claims := UserClaimsOf(name, spec, s, acc, signer);
            claims.limits == spec.limits && claims.bearerToken == (spec.bearerToken == Some(true)) <==>
              spec.permissions.None? || (spec.limits == "" && spec.bearerToken != Some(true))
  {
  }

  lemma WantedIsIssued(c: Cluster, k: Key, s: UserStatus, acc: Account, signer: Seed, x: UserOracle)
    requires k in c.users && s.keyPair.Some?
    ensures IssuedBy(WantedUserClaims(c, k, s, acc, signer, x), k.name, c.users[k].spec, s.keyPair, acc, signer)
  {
  }

  lemma EquivalentIsIssued(a: Claims, b: Claims, name: string, spec: UserSpec, pair: Option<KeyPair>, acc: Account, signer: Seed)
    requires Equivalent(a, b) && IssuedBy(b, name, spec, pair, acc, signer)
    ensures IssuedBy(a, name, spec, pair, acc, signer)
  {
    EquivalentSaysTheSame(a, b);
  }

  // What the JWT stage and the credentials after it achieve.
  predicate JwtWell(c: Cluster, k: Key, s: UserStatus, seed: Seed, acc: Account, signer: Seed, ca: CAOutcome, p: UserPlan)
    requires k in c.users
  {
    && p.status.Coupled() && p.labels == c.users[k].labels
    && (p.exit == UserJWTFailed || p.exit == UserJWTWritten
        || p.exit == CAUnavailable || p.exit == CredsFailed || p.exit == CredsWritten || p.exit == UserCompleted)
    && (p.exit == UserJWTFailed || p.exit == CredsFailed ==> FailsAt(p.exit, p.status))
    && (p.exit == UserJWTWritten || p.exit == CAUnavailable ==> p.status == s.MarkJWTSecretReady())
    && (p.exit == UserJWTWritten ==> HoldsIssued(c, k, p.store, s.keyPair, acc, signer))
    && (p.exit != UserJWTFailed && p.exit != UserJWTWritten ==> HoldsIssued(c, k, c.secrets, s.keyPair, acc, signer))
    && (p.exit == CredsWritten || p.exit == UserCompleted ==>
          && p.status == s.MarkJWTSecretReady().MarkCredentialsSecretReady()
          && HoldsCreds(p.store, UserCredsKey(c, k), c.secrets[UserJwtKey(c, k)].data[JWTKey].jwt, seed, ca))
    && (p.exit == CredsWritten ==>
          && p.store == c.secrets[UserCredsKey(c, k) := p.store[UserCredsKey(c, k)]]
          && SeedKey !in p.store[UserCredsKey(c, k)].data)
    && (p.exit == UserCompleted ==> p.writes == [] && p.store == c.secrets)
  }

  // The User's JWT secret holds such a JWT.
  predicate HoldsIssued(c: Cluster, k: Key, store: Store, pair: Option<KeyPair>, acc: Account, signer: Seed)
    requires k in c.users
  {
    var q := UserJwtKey(c, k);
    && q in store && JWTKey in store[q].data && store[q].data[JWTKey].JwtBlob? && store[q].data[JWTKey].jwt.Signed?
    && IssuedBy(store[q].data[JWTKey].jwt.claims, k.name, c.users[k].spec, pair, acc, signer)
  }

  lemma StoreUserJWTMeaning(c: Cluster, k: Key, s: UserStatus, seed: Seed, signer: Seed, acc: Account, x: UserOracle)
    requires k in c.users && s.Coupled() && s.keyPair.Some?
    ensures JwtWell(c, k, s, seed, acc, signer, x.creds.ca, StoreUserJWT(c, k, s, seed, signer, acc, x))
  {
    hide UserStatus.Coupled, UserStatus.Ready, JwtStage, UserCredsStage, Verdict, MarkUserJWT, IssuedBy, WantedUserClaims;
    var want := WantedUserClaims(c, k, s, acc, signer, x);
    WantedIsIssued(c, k, s, acc, signer, x);
    var out := UserJwtOut(c, k, want, x);
    if out.result.Ok? {
      JwtStageMeaning(c.secrets, UserOwner(k, c.users[k]), c.users[k].spec.jwtSecretName, want, x.jwt);
      EquivalentIsIssued(out.store[UserJwtKey(c, k)].data[JWTKey].jwt.claims, want, k.name, c.users[k].spec, s.keyPair, acc, signer);
      if out.writes == [] {
        CredsStageMeaning(c, k, s.MarkJWTSecretReady(), seed, out.result.value, x);
      }
    }
  }

  /******* The whole step *******/

  predicate UserFailed(e: UserExit) {
    e.UserSeedFailed? || e.UserIssuerFailed? || e.UserAccountFailed? || e.UserJWTFailed? || e.CredsFailed?
  }

  // The failures after the fetch that mark nothing: the account of a signing key is not ready, the
  // label cannot be written, the CA cannot be read.
  predicate Unmarked(e: UserExit) { e.AccountNotReady? || e.UserLabelNotWritten? || e.CAUnavailable? }

  // The conditions that the way to such an exit does not mark are all True.
  predicate RestTrue(e: UserExit, s: UserStatus) {
    && IsTrue(s.creds)
    && (e.AccountNotReady? || e.UserLabelNotWritten? ==> IsTrue(s.issuer) && IsTrue(s.jwt))
    && (e.AccountNotReady? ==> IsTrue(s.account))
  }

  // The exits at which the JWT secret was found up to date.
  predicate PastJwt(e: UserExit) { e.CAUnavailable? || e.CredsFailed? || e.CredsWritten? || e.UserCompleted? }

  // The Account is the issuer itself or the owner that the issuing SigningKey's status records.
  predicate AccountBehind(issuer: KeyPairable, key: Key) {
    match issuer
    case IssuerAccount(k, _) => k == key
    case IssuerSigningKey(_, sk) =>
      && sk.status.ownerRef.Some? && sk.status.ownerRef.value.kind == KindAccount
      && sk.status.ownerRef.value.ns == key.ns && sk.status.ownerRef.value.name == key.name
    case IssuerOperator(_, _) => false
  }

  // The Account's two selectors allow the User.
  predicate UserAdmittedBy(c: Cluster, k: Key, key: Key)
    requires k in c.users
  {
    && key in c.accounts && k.ns in c.namespaces
    && NamespaceAllowed(key.ns, c.accounts[key].spec.usersNamespaceSelector, k.ns, c.namespaces[k.ns])
    && LabelsAllowed(c.accounts[key].spec.usersSelector, c.users[k].labels)
  }

  // The account found is exactly the Account behind the issuer, if that is there and Ready.
  lemma AccountFoundIff(c: Cluster, ref: IssuerRef, fallback: string, issuer: KeyPairable, callOk: bool, key: Key)
    requires IssuerIs(c, ref, fallback, issuer) && IssuerReady(issuer)
    requires issuer.IssuerSigningKey? ==> issuer.signingKey.status.Coupled()
    ensures var found := FindAccount(c, issuer, callOk);
            && (found.FoundAccount? && found.key == key <==>
                  && (issuer.IssuerAccount? || callOk) && AccountBehind(issuer, key)
                  && key in c.accounts && IssuerReady(IssuerAccount(key, c.accounts[key])))
            && (found.FoundAccount? && found.key == key ==> found.account == c.accounts[key])
            && (found.NotMarked? ==> callOk && AsResult(found.error) == (Requeue, None))
  {
    if issuer.IssuerSigningKey? { KeyOwnerIff(c, issuer.signingKey, callOk); }
    hide ResolveSigningKeyOwner;
  }

  // Issued with the seed of the issuer that the User's spec names, on behalf of the Account behind that,
  // which is Ready, admits the User and is recorded.
  predicate GrantedBy(c: Cluster, k: Key, store: Store, s: UserStatus, issuer: KeyPairable, key: Key, signer: Seed)
    requires k in c.users
  {
    && IssuerIs(c, c.users[k].spec.issuer, k.ns, issuer) && IssuerReady(issuer) && SeedOfIssuer(c, issuer, PrefixAccount, signer)
    && AccountBehind(issuer, key) && UserAdmittedBy(c, k, key) && IssuerReady(IssuerAccount(key, c.accounts[key]))
    && s.accountRef == Some(key) && c.accounts[key].status.keyPair.Some?
    && HoldsIssued(c, k, store, s.keyPair, c.accounts[key], signer)
  }

  // The stored JWT was issued in that way with what the reconcile found.
  predicate Granted(c: Cluster, k: Key, store: Store, s: UserStatus, x: UserOracle)
    requires Coupled(c) && k in c.users
  {
    var issuer := ResolveIssuer(c, c.users[k].spec.issuer, k.ns, x.issuerOk);
    && issuer.Ok?
    && var found := FindAccount(c, issuer.value, x.ownerOk);
       var signer := LoadIssuerSeed(c, issuer.value, PrefixAccount, x.issuerSeedOk);
    && found.FoundAccount? && found.key in c.accounts && found.account == c.accounts[found.key] && signer.Ok?
    && GrantedBy(c, k, store, s, issuer.value, found.key, signer.value)
  }

  // What follows the choice of issuer and account.
  predicate AfterAccount(c: Cluster, k: Key, s: UserStatus, seed: Seed, issuer: KeyPairable, acc: Account, x: UserOracle, p: UserPlan)
    requires k in c.users
  {
    var signer := LoadIssuerSeed(c, issuer, PrefixAccount, x.issuerSeedOk);
    && p.status.Coupled()
    && (p.exit == UserJWTFailed || p.exit == UserJWTWritten || p.exit == UserLabelWritten || p.exit == UserLabelNotWritten || PastJwt(p.exit))
    && (UserFailed(p.exit) ==> FailsAt(p.exit, p.status))
    && (p.exit == UserLabelNotWritten ==> p.status == s)
    && (p.exit == CAUnavailable ==> p.status == s.MarkIssuerResolved().MarkJWTSecretReady())
    && (p.exit == UserJWTWritten || (PastJwt(p.exit) && p.exit != CredsFailed) ==>
          p.status.accountRef == s.accountRef && p.status.keyPair == s.keyPair)
    && (p.exit == UserJWTWritten ==> signer.Ok? && HoldsIssued(c, k, p.store, s.keyPair, acc, signer.value))
    && (PastJwt(p.exit) ==> signer.Ok? && HoldsIssued(c, k, c.secrets, s.keyPair, acc, signer.value))
    && (p.exit == CredsWritten || p.exit == UserCompleted ==>
          && p.status == s.MarkIssuerResolved().MarkJWTSecretReady().MarkCredentialsSecretReady()
          && HoldsCreds(p.store, UserCredsKey(c, k), c.secrets[UserJwtKey(c, k)].data[JWTKey].jwt, seed, x.creds.ca))
    && (p.exit == UserCompleted ==> p.writes == [] && p.store == c.secrets)
  }

  lemma UserJWTStageMeaning(c: Cluster, k: Key, s: UserStatus, seed: Seed, issuer: KeyPairable, acc: Account, x: UserOracle)
    requires k in c.users && s.Coupled() && s.keyPair.Some?
    ensures AfterAccount(c, k, s, seed, issuer, acc, x, UserJWTStage(c, k, s, seed, issuer, acc, x))
  {
    hide StoreUserJWT, LoadIssuerSeed, Verdict, MarkUserJWT, MarkUserIssuer, HoldsIssued, HoldsCreds, UserStatus.Coupled, UserStatus.Ready;
    match LoadIssuerSeed(c, issuer, PrefixAccount, x.issuerSeedOk)
    case Fail(_) =>
    case Ok(signer) => StoreUserJWTMeaning(c, k, s.MarkIssuerResolved(), seed, signer, acc, x);
  }

  lemma UserLabelStageMeaning(c: Cluster, k: Key, s: UserStatus, seed: Seed, issuer: KeyPairable, key: Key, acc: Account, x: UserOracle)
    requires k in c.users && s.Coupled() && c.users[k].status.Coupled() && s.keyPair.Some?
    ensures AfterAccount(c, k, s, seed, issuer, acc, x, UserLabelStage(c, k, s, seed, issuer, key, acc, x))
  {
    hide UserJWTStage, LoadIssuerSeed, HoldsIssued, HoldsCreds, UserStatus.Coupled, UserStatus.Ready;
    UserJWTStageMeaning(c, k, s, seed, issuer, acc, x);
  }

  // The account's name is written as a label, and found there the next time.
  lemma UserLabelSticks(c: Cluster, k: Key, s: UserStatus, seed: Seed, issuer: KeyPairable, key: Key, acc: Account, x: UserOracle)
    requires k in c.users && UserLabelStage(c, k, s, seed, issuer, key, acc, x).exit == UserLabelWritten
    ensures AccountLabel(UserLabelStage(c, k, s, seed, issuer, key, acc, x).labels) == key.name
    ensures UserLabelStage(c, k, s, seed, issuer, key, acc, x).labels - {LabelAccountName} == c.users[k].labels - {LabelAccountName}
  {
    NoLabelFromJwt(c, k, s, seed, issuer, acc, x);
    hide UserJWTStage;
  }

  lemma NoLabelFromJwt(c: Cluster, k: Key, s: UserStatus, seed: Seed, issuer: KeyPairable, acc: Account, x: UserOracle)
    requires k in c.users
    ensures UserJWTStage(c, k, s, seed, issuer, acc, x).exit != UserLabelWritten
  {
    hide JwtStage, LoadIssuerSeed, Verdict, WantedUserClaims, BuildCreds, UserStatus.Coupled, UserStatus.Ready;
  }

  predicate UserWell(c: Cluster, k: Key, s: UserStatus, seed: Seed, x: UserOracle, p: UserPlan)
    requires Coupled(c) && k in c.users
  {
    && p.status.Coupled()
    && (UserFailed(p.exit) ==> FailsAt(p.exit, p.status))
    && (p.exit == CredsWritten || p.exit == UserCompleted ==> IsTrue(s.seed) ==> p.status.Ready())
    && (Unmarked(p.exit) && IsTrue(s.seed) ==> (p.status.Ready() <==> RestTrue(p.exit, s)))
    && (p.exit == UserJWTWritten ==> Granted(c, k, p.store, p.status, x))
    && (p.exit == CredsWritten || p.exit == UserCompleted ==>
          && Granted(c, k, c.secrets, p.status, x)
          && HoldsCreds(p.store, UserCredsKey(c, k), c.secrets[UserJwtKey(c, k)].data[JWTKey].jwt, seed, x.creds.ca))
    && (p.exit == UserCompleted ==> p.writes == [] && p.store == c.secrets)
  }

  lemma FoundAccountHasKeyPair(c: Cluster, k: Key, x: UserOracle)
    requires Coupled(c) && k in c.users
    requires var issuer := ResolveIssuer(c, c.users[k].spec.issuer, k.ns, x.issuerOk);
             issuer.Ok? && FindAccount(c, issuer.value, x.ownerOk).FoundAccount?
    ensures var issuer := ResolveIssuer(c, c.users[k].spec.issuer, k.ns, x.issuerOk);
            FindAccount(c, issuer.value, x.ownerOk).account.status.keyPair.Some?
  {
  }

  predicate Validated(c: Cluster, k: Key, key: Key, acc: Account)
    requires k in c.users
  {
    && k.ns in c.namespaces && NamespaceAllowed(key.ns, acc.spec.usersNamespaceSelector, k.ns, c.namespaces[k.ns])
    && LabelsAllowed(acc.spec.usersSelector, c.users[k].labels)
  }

  lemma UserAccountStageMeaning(c: Cluster, k: Key, s: UserStatus, seed: Seed, issuer: KeyPairable, x: UserOracle)
    requires Coupled(c) && k in c.users && s.Coupled() && s.keyPair.Some?
    requires issuer.IssuerSigningKey? ==> issuer.signingKey.status.Coupled()
    ensures var p, found := UserAccountStage(c, k, s, seed, issuer, x), FindAccount(c, issuer, x.ownerOk);
            || (p.exit == UserAccountFailed && p.status.Coupled() && FailsAt(p.exit, p.status))
            || (p.exit == AccountNotReady && p.status == s)
            || (&& found.FoundAccount? && Validated(c, k, found.key, found.account)
                && AfterAccount(c, k, s.MarkAccountResolved(found.key), seed, issuer, found.account, x, p))
  {
    hide FindAccount, NamespaceAllowed, LabelsAllowed, UserLabelStage, AfterAccount, ValidateSelectors, Verdict, MarkAccount, UserStatus.Coupled, UserStatus.Ready;
    var found := FindAccount(c, issuer, x.ownerOk);
    if found.FoundAccount? {
      AdmittedIff(c, found.key.ns, found.account.spec.usersNamespaceSelector, found.account.spec.usersSelector, k.ns, c.users[k].labels, x.namespaceOk);
      UserLabelStageMeaning(c, k, s.MarkAccountResolved(found.key), seed, issuer, found.key, found.account, x);
    }
  }

  lemma FullStatusIsReady(s: UserStatus, key: Key)
    requires IsTrue(s.seed)
    ensures s.MarkAccountResolved(key).MarkIssuerResolved().MarkJWTSecretReady().MarkCredentialsSecretReady().Ready()
  {
  }

  lemma UnmarkedKeepsReady(s: UserStatus, key: Key)
    requires IsTrue(s.seed)
    ensures s.Ready() <==> RestTrue(AccountNotReady, s)
    ensures s.MarkAccountResolved(key).Ready() <==> RestTrue(UserLabelNotWritten, s)
    ensures s.MarkAccountResolved(key).MarkIssuerResolved().MarkJWTSecretReady().Ready() <==> RestTrue(CAUnavailable, s)
  {
  }

  // What the lookups found, in the cluster's own terms.
  lemma GrantedAsFound(c: Cluster, k: Key, issuer: KeyPairable, x: UserOracle)
    requires Coupled(c) && k in c.users && ResolveIssuer(c, c.users[k].spec.issuer, k.ns, x.issuerOk) == Ok(issuer)
    requires issuer.IssuerSigningKey? ==> issuer.signingKey.status.Coupled()
    requires FindAccount(c, issuer, x.ownerOk).FoundAccount?
    ensures var found, signer := FindAccount(c, issuer, x.ownerOk), LoadIssuerSeed(c, issuer, PrefixAccount, x.issuerSeedOk);
            && IssuerIs(c, c.users[k].spec.issuer, k.ns, issuer) && IssuerReady(issuer) && AccountBehind(issuer, found.key)
            && found.key in c.accounts && c.accounts[found.key] == found.account && IssuerReady(IssuerAccount(found.key, found.account))
            && (signer.Ok? ==> SeedOfIssuer(c, issuer, PrefixAccount, signer.value))
  {
    hide FindAccount, LoadIssuerSeed, SeedOfIssuer, AccountBehind, Coupled;
    IssuerResolvesIff(c, c.users[k].spec.issuer, k.ns, x.issuerOk);
    hide ResolveIssuer, IssuerIs, IssuerReady;
    AccountFoundIff(c, c.users[k].spec.issuer, k.ns, issuer, x.ownerOk, FindAccount(c, issuer, x.ownerOk).key);
    var signer := LoadIssuerSeed(c, issuer, PrefixAccount, x.issuerSeedOk);
    if signer.Ok? { IssuerSeedLoadsIff(c, issuer, PrefixAccount, x.issuerSeedOk, signer.value); }
  }

  lemma GrantedFromParts(c: Cluster, k: Key, issuer: KeyPairable, x: UserOracle, store: Store, s: UserStatus)
    requires Coupled(c) && k in c.users && ResolveIssuer(c, c.users[k].spec.issuer, k.ns, x.issuerOk) == Ok(issuer)
    requires issuer.IssuerSigningKey? ==> issuer.signingKey.status.Coupled()
    requires var found, signer := FindAccount(c, issuer, x.ownerOk), LoadIssuerSeed(c, issuer, PrefixAccount, x.issuerSeedOk);
             && found.FoundAccount? && found.account.status.keyPair.Some? && Validated(c, k, found.key, found.account) && signer.Ok?
             && s.accountRef == Some(found.key) && HoldsIssued(c, k, store, s.keyPair, found.account, signer.value)
    ensures Granted(c, k, store, s, x)
  {
    GrantedAsFound(c, k, issuer, x);
    hide Coupled, ResolveIssuer, FindAccount, LoadIssuerSeed, HoldsIssued, UserStatus.Coupled, UserStatus.Ready;
    hide IssuerIs, IssuerReady, SeedOfIssuer, AccountBehind, NamespaceAllowed, LabelsAllowed;
  }

  lemma AfterAccountIsWell(c: Cluster, k: Key, s: UserStatus, seed: Seed, issuer: KeyPairable, x: UserOracle, p: UserPlan)
    requires Coupled(c) && k in c.users && ResolveIssuer(c, c.users[k].spec.issuer, k.ns, x.issuerOk) == Ok(issuer)
    requires issuer.IssuerSigningKey? ==> issuer.signingKey.status.Coupled()
    requires var found := FindAccount(c, issuer, x.ownerOk);
             && found.FoundAccount? && found.account.status.keyPair.Some? && Validated(c, k, found.key, found.account)
             && AfterAccount(c, k, s.MarkAccountResolved(found.key), seed, issuer, found.account, x, p)
    ensures UserWell(c, k, s, seed, x, p)
  {
    hide Coupled, ResolveIssuer, FindAccount, LoadIssuerSeed, Validated, Granted, HoldsIssued, HoldsCreds, UserStatus.Coupled, UserStatus.Ready, RestTrue;
    if p.exit == UserJWTWritten { GrantedFromParts(c, k, issuer, x, p.store, p.status); }
    if p.exit == CredsWritten || p.exit == UserCompleted { GrantedFromParts(c, k, issuer, x, c.secrets, p.status); }
    if IsTrue(s.seed) {
      FullStatusIsReady(s, FindAccount(c, issuer, x.ownerOk).key);
      UnmarkedKeepsReady(s, FindAccount(c, issuer, x.ownerOk).key);
    }
  }

  lemma UserIssuerStageMeaning(c: Cluster, k: Key, s: UserStatus, seed: Seed, x: UserOracle)
    requires Coupled(c) && k in c.users && s.Coupled() && s.keyPair.Some?
    ensures UserWell(c, k, s, seed, x, UserIssuerStage(c, k, s, seed, x))
  {
    hide FindAccount, UserAccountStage, AfterAccount, Validated, Granted, HoldsCreds, Verdict, MarkUserIssuer, UserStatus.Coupled, UserStatus.Ready, RestTrue;
    if IsTrue(s.seed) { UnmarkedKeepsReady(s, k); }
    var issuer := ResolveIssuer(c, c.users[k].spec.issuer, k.ns, x.issuerOk);
    if issuer.Ok? {
      IssuerOfKeyCoupled(c, c.users[k].spec.issuer, k.ns, x.issuerOk);
      hide ResolveIssuer, Coupled;
      UserAccountStageMeaning(c, k, s, seed, issuer.value, x);
      var p, found := UserAccountStage(c, k, s, seed, issuer.value, x), FindAccount(c, issuer.value, x.ownerOk);
      if found.FoundAccount? && Validated(c, k, found.key, found.account) && AfterAccount(c, k, s.MarkAccountResolved(found.key), seed, issuer.value, found.account, x, p) {
        FoundAccountHasKeyPair(c, k, x);
        AfterAccountIsWell(c, k, s, seed, issuer.value, x, p);
        hide UserWell;
      }
    }
  }

  // For every outcome of every call: statuses stay coupled; a User that completes is Ready and its
  // stored JWT was granted by the account it records; its credentials are built from the
  // JWT and the seed that are stored; a marked failure is not Ready, and after an unmarked one it is
  // Ready exactly when the stored conditions that the way there does not mark are all True.
  lemma UserStepMeaning(c: Cluster, k: Key, x: UserOracle)
    requires Coupled(c)
    ensures var st := ReconcileUser(c, k, x);
            && Coupled(st.c) && st.status.Coupled()
            && (UserFailed(st.exit) ==> FailsAt(st.exit, st.status) && !st.status.Ready())
            && (Unmarked(st.exit) ==> k in c.users && (st.status.Ready() <==> RestTrue(st.exit, c.users[k].status)))
            && (st.exit == CredsWritten || st.exit == UserCompleted ==> st.status.Ready())
            && (st.exit == UserJWTWritten ==> k in c.users && Granted(c, k, st.c.secrets, st.status, x))
            && (st.exit == CredsWritten || st.exit == UserCompleted ==> k in c.users && CredsAgree(c, k, st, x))
            && (st.exit == UserCompleted ==> st.c.secrets == c.secrets)
            && st.c == c.(users := st.c.users, secrets := st.c.secrets)
  {
    assert NewUserStatus.Coupled();
    if x.fetchOk && k in c.users {
      InitialCoupled(c, k);
      RestOfInitial(c.users[k].status);
      UserStagesMeaning(c, k, c.users[k].status.InitializeConditions(), x);
      var p := UserStages(c, k, c.users[k].status.InitializeConditions(), x);
      ClosedCoupled(c, k, p, x);
      if UserFailed(p.exit) { FailureNotReady(p.exit, p.status); }
    }
    hide UserStages, Granted, UserStatus.Coupled, UserStatus.Ready, UserSeedStage, HoldsCreds, HoldsSeed, JwtPresent, RestTrue, Coupled;
  }

  lemma InitialCoupled(c: Cluster, k: Key)
    requires Coupled(c) && k in c.users
    ensures c.users[k].status.InitializeConditions().Coupled()
  {
  }

  lemma ClosedCoupled(c: Cluster, k: Key, p: UserPlan, x: UserOracle)
    requires Coupled(c) && k in c.users && p.status.Coupled()
    ensures Coupled(CloseUser(c, k, p, x).c)
  {
    hide UserStatus.Coupled;
  }

  lemma RestOfInitial(s: UserStatus)
    ensures forall e :: RestTrue(e, s.InitializeConditions()) <==> RestTrue(e, s)
  {
  }

  predicate CredsAgree(c: Cluster, k: Key, st: UserStep, x: UserOracle)
    requires Coupled(c) && k in c.users
  {
    && Granted(c, k, c.secrets, st.status, x)
    && var seed := UserSeedStage(c, k, x);
    && seed.SeedReady? && HoldsSeed(c.secrets, UserSeedKey(c, k), seed.seed)
    && JwtPresent(c.secrets, UserJwtKey(c, k))
    && HoldsCreds(st.c.secrets, UserCredsKey(c, k), c.secrets[UserJwtKey(c, k)].data[JWTKey].jwt, seed.seed, x.creds.ca)
  }

  predicate JwtPresent(store: Store, key: Key) {
    key in store && JWTKey in store[key].data && store[key].data[JWTKey].JwtBlob?
  }

  lemma UserStagesMeaning(c: Cluster, k: Key, s: UserStatus, x: UserOracle)
    requires Coupled(c) && k in c.users && s.Coupled()
    ensures var p := UserStages(c, k, s, x);
            var out := UserSeedStage(c, k, x);
            && p.status.Coupled()
            && (UserFailed(p.exit) ==> FailsAt(p.exit, p.status))
            && (Unmarked(p.exit) ==> (p.status.Ready() <==> RestTrue(p.exit, s)))
            && (p.exit == CredsWritten || p.exit == UserCompleted ==> p.status.Ready())
            && (p.exit == UserJWTWritten ==> Granted(c, k, p.store, p.status, x))
            && (p.exit == CredsWritten || p.exit == UserCompleted ==>
                  && Granted(c, k, c.secrets, p.status, x) && JwtPresent(c.secrets, UserJwtKey(c, k))
                  && out.SeedReady? && HoldsSeed(c.secrets, UserSeedKey(c, k), out.seed)
                  && HoldsCreds(p.store, UserCredsKey(c, k), c.secrets[UserJwtKey(c, k)].data[JWTKey].jwt, out.seed, x.creds.ca))
            && (p.exit == UserCompleted ==> p.store == c.secrets)
  {
    hide UserIssuerStage, UserStatus.Ready, SeedStage, HoldsCreds, HoldsSeed, Verdict, MarkUserSeed, ResolveIssuer, FindAccount, LoadIssuerSeed, Coupled;
    var out := UserSeedStage(c, k, x);
    if out.SeedReady? && !out.wrote {
      SeedStageMeaning(c.secrets, UserOwner(k, c.users[k]), c.users[k].spec.seedSecretName, PrefixUser, false, x.seed);
      UserIssuerStageMeaning(c, k, s.MarkSeedSecretReady(out.keyPair), out.seed, x);
      hide SeedBuilt;
    }
  }
}
