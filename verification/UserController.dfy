/**
 UserReconciler.Reconcile of internal/controller/accounts/user_controller.go, as one atomic step.
 */
module UserController {
  import opened Texts
  import opened Lifecycles
  import opened Errors
  import opened Secrets
  import opened ClusterState
  import opened SecretStages

  // getCAIfExists: the CA bundle of the account's operator, none configured, or an error.
  datatype CAOutcome = CAFound(ca: Blob) | NoCA | CAFails

  datatype CredsOracle = CredsOracle(ca: CAOutcome, getOk: bool, formatOk: bool, createOk: bool, updateOk: bool)

  datatype UserOracle = UserOracle(
    fetchOk: bool, updateOk: bool, refreshes: bool, seed: SeedOracle, issuerOk: bool, ownerOk: bool, namespaceOk: bool,
    issuerSeedOk: bool, encodeOk: bool, iat: int, jti: string, jwt: JwtOracle, creds: CredsOracle, status: StatusOutcome)

  datatype UserExit =
    | UserNotFetched | NoUser
    | UserSeedFailed | UserSeedWritten | UserIssuerFailed | UserAccountFailed | AccountNotReady
    | UserLabelWritten | UserLabelNotWritten | UserJWTFailed | UserJWTWritten
    | CAUnavailable | CredsFailed | CredsWritten | UserCompleted

  datatype UserPlan = UserPlan(
    status: UserStatus, labels: Labels, store: Store, writes: seq<Write>, exit: UserExit, result: CtrlResult, error: Option<Err>)

  datatype UserStep = UserStep(
    c: Cluster, status: UserStatus, writes: seq<Write>, exit: UserExit, result: CtrlResult, error: Option<Err>)

  function UserOwner(k: Key, usr: User): Owner { Owner(KindUser, k, usr.uid) }

  function ReconcileUser(c: Cluster, k: Key, x: UserOracle): UserStep
    requires Coupled(c)
  {
    if !x.fetchOk then UserStep(c, NewUserStatus, [], UserNotFetched, Done, Some(Plain(ApiCallFailed)))
    else if k !in c.users then UserStep(c, NewUserStatus, [], NoUser, Done, None)
    else CloseUser(c, k, UserStages(c, k, c.users[k].status.InitializeConditions(), x), x)
  }

  function CloseUser(c: Cluster, k: Key, p: UserPlan, x: UserOracle): UserStep
    requires k in c.users
  {
    var usr := c.users[k];
    var same := p.status == usr.status;
    var stored := !same && x.status == StatusStored;
    UserStep(
      c.(users := c.users[k := usr.(labels := p.labels, status := if stored then p.status else usr.status)], secrets := p.store),
      p.status,
      if stored then p.writes + [StatusWritten(k)] else p.writes,
      p.exit,
      if !same && x.status == StatusConflict && p.error.None? then Requeue else p.result,
      if !same && x.status == StatusFails && p.error.None? then Some(Plain(ApiCallFailed)) else p.error)
  }

  function StopUser(c: Cluster, k: Key, s: UserStatus, exit: UserExit, result: (CtrlResult, Option<Err>)): UserPlan
    requires k in c.users
  {
    UserPlan(s, c.users[k].labels, c.secrets, [], exit, result.0, result.1)
  }

  function MarkUserSeed(s: UserStatus, m: MarkCall): (r: UserStatus)
    ensures r == s.(seed := MarkedAs(m), keyPair := None)
    ensures s.Coupled() ==> r.Coupled()
    ensures !r.Ready()
  {
    if m.failure then s.MarkSeedSecretFailed(m.reason, m.message) else s.MarkSeedSecretUnknown(m.reason, m.message)
  }

  function MarkUserIssuer(s: UserStatus, m: MarkCall): (r: UserStatus)
    ensures r == s.(issuer := MarkedAs(m))
    ensures s.Coupled() ==> r.Coupled()
    ensures !r.Ready()
  {
    if m.failure then s.MarkIssuerResolveFailed(m.reason, m.message) else s.MarkIssuerResolveUnknown(m.reason, m.message)
  }

  function MarkAccount(s: UserStatus, m: MarkCall): (r: UserStatus)
    ensures r == s.(account := MarkedAs(m), accountRef := None)
    ensures s.Coupled() ==> r.Coupled()
    ensures !r.Ready()
  {
    if m.failure then s.MarkAccountResolveFailed(m.reason, m.message) else s.MarkAccountResolveUnknown(m.reason, m.message)
  }

  function MarkUserJWT(s: UserStatus, m: MarkCall): (r: UserStatus)
    ensures r == s.(jwt := MarkedAs(m))
    ensures s.Coupled() ==> r.Coupled()
    ensures !r.Ready()
  {
    if m.failure then s.MarkJWTSecretFailed(m.reason, m.message) else s.MarkJWTSecretUnknown(m.reason, m.message)
  }

  /******* Up to the labels *******/

  function UserSeedStage(c: Cluster, k: Key, x: UserOracle): SeedOut
    requires k in c.users
  {
    SeedStage(c.secrets, UserOwner(k, c.users[k]), c.users[k].spec.seedSecretName, PrefixUser, false, x.seed)
  }

  function UserStages(c: Cluster, k: Key, s: UserStatus, x: UserOracle): UserPlan
    requires Coupled(c) && k in c.users
  {
    match UserSeedStage(c, k, x)
    case SeedFailed(e) => StopUser(c, k, MarkUserSeed(s, Verdict(e)), UserSeedFailed, AsResult(e))
    case SeedReady(store, kp, seed, wrote) =>
      if wrote then
        UserPlan(s.MarkSeedSecretReady(kp), c.users[k].labels, store,
                 [SecretWritten(Key(k.ns, c.users[k].spec.seedSecretName))], UserSeedWritten, Requeue, None)
      else UserIssuerStage(c, k, s.MarkSeedSecretReady(kp), seed, x)
  }

  function UserIssuerStage(c: Cluster, k: Key, s: UserStatus, seed: Seed, x: UserOracle): UserPlan
    requires Coupled(c) && k in c.users
  {
    match ResolveIssuer(c, c.users[k].spec.issuer, k.ns, x.issuerOk)
    case Fail(e) => StopUser(c, k, MarkUserIssuer(s, Verdict(e)), UserIssuerFailed, AsResult(e))
    case Ok(issuer) => UserAccountStage(c, k, s, seed, issuer, x)
  }

  // resolveAccount; a signing key whose account is not ready ends the reconcile without a mark.
  datatype AccountFound = FoundAccount(key: Key, account: Account) | NotMarked(error: Err) | Marked(error: Err)

  function FindAccount(c: Cluster, issuer: KeyPairable, callOk: bool): AccountFound
    requires issuer.IssuerSigningKey? ==> issuer.signingKey.status.Coupled()
  {
    match issuer
    case IssuerAccount(key, acc) => FoundAccount(key, acc)
    case IssuerSigningKey(_, sk) =>
      (match ResolveSigningKeyOwner(c, sk, callOk)
       case Fail(e) => Marked(e)
       case Ok(OwnedByAccount(key, acc)) =>
         if acc.status.Ready() then FoundAccount(key, acc)
         else NotMarked(TemporaryError(ConditionUncertain(NotReady, Plain(ObjectNotReady))))
       case Ok(_) => Marked(TerminalError(ConditionFailed(InvalidSigningKeyOwner, Plain(WrongKind)))))
    case IssuerOperator(_, _) => Marked(TerminalError(ConditionFailed(UnsupportedIssuer, Plain(WrongKind))))
  }

  function UserAccountStage(c: Cluster, k: Key, s: UserStatus, seed: Seed, issuer: KeyPairable, x: UserOracle): UserPlan
    requires Coupled(c) && k in c.users
    requires issuer.IssuerSigningKey? ==> issuer.signingKey.status.Coupled()
  {
    match FindAccount(c, issuer, x.ownerOk)
    case Marked(e) => StopUser(c, k, MarkAccount(s, Verdict(e)), UserAccountFailed, AsResult(e))
    case NotMarked(e) => StopUser(c, k, s, AccountNotReady, AsResult(e))
    case FoundAccount(key, acc) =>
      match ValidateSelectors(c, key.ns, acc.spec.usersNamespaceSelector, acc.spec.usersSelector, k.ns, c.users[k].labels, x.namespaceOk)
      case Fail(e) => StopUser(c, k, MarkAccount(s, Verdict(e)), UserAccountFailed, AsResult(e))
      case Ok(_) => UserLabelStage(c, k, s.MarkAccountResolved(key), seed, issuer, key, acc, x)
  }

  function AccountLabel(labels: Labels): string {
    if LabelAccountName in labels then labels[LabelAccountName] else ""
  }

  function UserLabelStage(c: Cluster, k: Key, s: UserStatus, seed: Seed, issuer: KeyPairable, account: Key, acc: Account, x: UserOracle): UserPlan
    requires k in c.users
  {
    if AccountLabel(c.users[k].labels) == account.name then UserJWTStage(c, k, s, seed, issuer, acc, x)
    else if !x.updateOk then StopUser(c, k, s, UserLabelNotWritten, (Done, Some(Plain(ApiCallFailed))))
    else
      UserPlan(if x.refreshes then c.users[k].status else s, c.users[k].labels[LabelAccountName := account.name],
               c.secrets, [ObjectWritten(k)], UserLabelWritten, Requeue, None)
  }

  /******* JWT *******/

  // CreateUserClaims before encoding. Permissions replace limits and bearer token.
  function UserClaimsOf(name: string, spec: UserSpec, s: UserStatus, acc: Account, signer: Seed): Claims {
    var subject := if s.keyPair.Some? then s.keyPair.value.publicKey else "";
    var account := acc.status.keyPair;
    UserClaims(
      ClaimsData("", 0, "", subject, name),
      if account.Some? && account.value.publicKey != PublicKey(signer) then account.value.publicKey else "",
      if spec.permissions.Some? then "" else spec.limits,
      if spec.permissions.Some? then false else spec.bearerToken.Some? && spec.bearerToken.value,
      if spec.permissions.Some? then spec.permissions.value else "")
  }

  function WantedUserClaims(c: Cluster, k: Key, s: UserStatus, acc: Account, signer: Seed, x: UserOracle): Claims
    requires k in c.users
  {
    Stamped(UserClaimsOf(k.name, c.users[k].spec, s, acc, signer), signer, x.iat, x.jti)
  }

  function UserJwtOut(c: Cluster, k: Key, want: Claims, x: UserOracle): JwtOut
    requires k in c.users
  {
    JwtStage(c.secrets, UserOwner(k, c.users[k]), c.users[k].spec.jwtSecretName, want, Signed(want), x.jwt)
  }

  // A failure to load the issuer's seed marks the issuer and then the JWT secret.
  function UserJWTStage(c: Cluster, k: Key, s: UserStatus, seed: Seed, issuer: KeyPairable, acc: Account, x: UserOracle): UserPlan
    requires k in c.users
  {
    match LoadIssuerSeed(c, issuer, PrefixAccount, x.issuerSeedOk)
    case Fail(e) => StopUser(c, k, MarkUserJWT(MarkUserIssuer(s, Verdict(e)), Verdict(e)), UserJWTFailed, AsResult(e))
    case Ok(signer) => StoreUserJWT(c, k, s.MarkIssuerResolved(), seed, signer, acc, x)
  }

  function StoreUserJWT(c: Cluster, k: Key, s: UserStatus, seed: Seed, signer: Seed, acc: Account, x: UserOracle): UserPlan
    requires k in c.users
  {
    if !x.encodeOk then
      var e := TerminalError(ConditionFailed(UnknownError, Wrap(Plain(EncodeFailed))));
      StopUser(c, k, MarkUserJWT(s, Verdict(e)), UserJWTFailed, AsResult(e))
    else
      var out := UserJwtOut(c, k, WantedUserClaims(c, k, s, acc, signer, x), x);
      match out.result
      case Fail(e) => StopUser(c, k, MarkUserJWT(s, Verdict(e)), UserJWTFailed, AsResult(e)).(store := out.store, writes := out.writes)
      case Ok(jwt) =>
        if out.writes == [] then UserCredsStage(c, k, s.MarkJWTSecretReady(), seed, jwt, x)
        else StopUser(c, k, s.MarkJWTSecretReady(), UserJWTWritten, (Requeue, None)).(store := out.store, writes := out.writes)
  }

  /******* Credentials *******/

  function CABlob(outcome: CAOutcome): Blob {
    if outcome.CAFound? then outcome.ca else TextBlob("")
  }

  function BuildCreds(base: Secret, o: Owner, jwt: Jwt, seed: Seed, x: CredsOracle): Option<Secret> {
    if !x.formatOk then None else BuildCredsSecret(base, o, jwt, SeedBlob(seed), CABlob(x.ca))
  }

  function CredsFailure(c: Cluster, k: Key, s: UserStatus, fault: Fault): UserPlan
    requires k in c.users
  {
    StopUser(c, k, s.MarkCredentialsSecretFailed(UnknownError, Reports(fault)), CredsFailed, (Done, Some(Wrap(Plain(fault)))))
  }

  // reconcileUserCredentialSecret
  function UserCredsStage(c: Cluster, k: Key, s: UserStatus, seed: Seed, jwt: Jwt, x: UserOracle): UserPlan
    requires k in c.users
  {
    if x.creds.ca.CAFails? then
      StopUser(c, k, s, CAUnavailable, (Done, Some(Wrap(Plain(ApiCallFailed)))))
    else if !x.creds.getOk then
      StopUser(c, k, s.MarkCredentialsSecretUnknown(UnknownError, Reports(ApiCallFailed)), CredsFailed, (Done, Some(Wrap(Plain(ApiCallFailed)))))
    else if Key(k.ns, c.users[k].spec.credentialsSecretName) !in c.secrets then
      CreateCreds(c, k, s, seed, jwt, x.creds)
    else
      UpdateCreds(c, k, s, seed, jwt, x.creds)
  }

  function StoreCreds(c: Cluster, k: Key, s: UserStatus, secret: Secret): UserPlan
    requires k in c.users
  {
    var key := Key(k.ns, c.users[k].spec.credentialsSecretName);
    UserPlan(s.MarkCredentialsSecretReady(), c.users[k].labels, c.secrets[key := secret], [SecretWritten(key)], CredsWritten, Requeue, None)
  }

  // createCredentialsSecret
  function CreateCreds(c: Cluster, k: Key, s: UserStatus, seed: Seed, jwt: Jwt, x: CredsOracle): UserPlan
    requires k in c.users
  {
    var built := BuildCreds(EmptySecret, UserOwner(k, c.users[k]), jwt, seed, x);
    if built.None? then CredsFailure(c, k, s, BuildFailed)
    else if !CanCreate(c.secrets, Key(k.ns, c.users[k].spec.credentialsSecretName), x.createOk) then CredsFailure(c, k, s, ApiCallFailed)
    else StoreCreds(c, k, s, built.value)
  }

  // ensureCredentialsSecretUpToDate
  function UpdateCreds(c: Cluster, k: Key, s: UserStatus, seed: Seed, jwt: Jwt, x: CredsOracle): UserPlan
    requires k in c.users && Key(k.ns, c.users[k].spec.credentialsSecretName) in c.secrets
  {
    var got := c.secrets[Key(k.ns, c.users[k].spec.credentialsSecretName)];
    var want := BuildCreds(got, UserOwner(k, c.users[k]), jwt, seed, x);
    if want.None? then CredsFailure(c, k, s, BuildFailed)
    else if want.value == got then StopUser(c, k, s.MarkCredentialsSecretReady(), UserCompleted, (Done, None))
    else if !x.updateOk then CredsFailure(c, k, s, ApiCallFailed)
    else StoreCreds(c, k, s, want.value)
  }
}
