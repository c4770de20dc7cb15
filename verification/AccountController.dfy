/**
 AccountReconciler.Reconcile of internal/controller/accounts/account_controller.go.

 One call is one atomic step on the cluster. An oracle gives the outcome of every API call, the
 fresh key material, the stamp of a new JWT and the order in which a map was iterated. The stages
 below follow the source in order; each hands over to the next or closes the step.
 */
module AccountController {
  import opened Texts
  import opened Lifecycles
  import opened Errors
  import opened Secrets
  import opened SigningKeys
  import opened ClusterState
  import opened SecretStages

  datatype PushOutcome = LoadFails | OptionsFail | ConnectFails | PushFails | PushSucceeds

  datatype RevokeOutcome = SystemMissing | SystemFails | RevokeOptionsFail | RevokeConnectFails | RevokeFails | RevokeSucceeds

  datatype AccountOracle = AccountOracle(
    fetchOk: bool,
    updateOk: bool,
    // whether Update replaces the status in memory with the one on the server
    refreshes: bool,
    seed: SeedOracle,
    issuerOk: bool,
    ownerOk: bool,
    namespaceOk: bool,
    listOk: bool,
    keys: seq<SigningKeyEntry>,
    issuerSeedOk: bool,
    encodeOk: bool,
    iat: int,
    jti: string,
    jwt: JwtOracle,
    push: PushOutcome,
    operatorOk: bool,
    operatorSeedOk: bool,
    revoke: RevokeOutcome,
    status: StatusOutcome)

  datatype Exit =
    | FetchFailed | Gone
    | FinalizerAdded | FinalizerNotAdded | Finalized | FinalizerNotRemoved | FinalizeFailed | Panicked | AlreadyFinalized
    | SeedFailure | SeedWritten | IssuerFailure | OperatorFailure
    | LabelWritten | LabelNotWritten | KeysFailure | IssuerSeedFailure
    | JWTFailure | JWTWritten | PushFailure | Pushed

  // How a reconcile ends: labels and finalizers on the server, the status in memory, the secrets,
  // and what is returned to the runtime.
  datatype Plan = Plan(
    status: AccountStatus, labels: Labels, finalizers: set<Finalizer>, store: Store, writes: seq<Write>,
    nats: NatsCall, exit: Exit, result: CtrlResult, error: Option<Err>)

  // The request sent to the NATS account server, if any.
  datatype NatsCall = NoCall | PushSent(jwt: Jwt) | Revoked(subject: string)

  datatype Step = Step(
    c: Cluster, status: AccountStatus, writes: seq<Write>, nats: NatsCall,
    exit: Exit, result: CtrlResult, error: Option<Err>)

  function OwnerOf(k: Key, acc: Account): Owner { Owner(KindAccount, k, acc.uid) }

  /******* Reconcile *******/

  function Reconcile(c: Cluster, k: Key, x: AccountOracle): Step
    requires Coupled(c)
  {
    if !x.fetchOk then Step(c, NewAccountStatus, [], NoCall, FetchFailed, Done, Some(Plain(ApiCallFailed)))
    else if k !in c.accounts then Step(c, NewAccountStatus, [], NoCall, Gone, Done, None)
    else Close(c, k, Stages(c, k, c.accounts[k].status.InitializeConditions(), x), x)
  }

  // The deferred status write. An object that is being deleted goes with its last finalizer, and a
  // status write no longer finds it.
  function Close(c: Cluster, k: Key, p: Plan, x: AccountOracle): Step
    requires k in c.accounts
  {
    var acc := c.accounts[k];
    var gone := acc.deleting && p.finalizers == {};
    var same := p.status == acc.status;
    var status := if !same && !gone && x.status == StatusStored then p.status else acc.status;
    var acc' := acc.(labels := p.labels, finalizers := p.finalizers, status := status);
    Step(
      c.(accounts := if gone then c.accounts - {k} else c.accounts[k := acc'], secrets := p.store),
      p.status,
      if !same && !gone && x.status == StatusStored then p.writes + [StatusWritten(k)] else p.writes,
      p.nats,
      p.exit,
      if !same && !gone && x.status == StatusConflict && p.error.None? then Requeue else p.result,
      if !same && p.error.None? && (gone || x.status == StatusFails) then Some(Plain(ApiCallFailed)) else p.error)
  }

  // An end without a write.
  function Stop(c: Cluster, k: Key, s: AccountStatus, exit: Exit, result: (CtrlResult, Option<Err>)): Plan
    requires k in c.accounts
  {
    Plan(s, c.accounts[k].labels, c.accounts[k].finalizers, c.secrets, [], NoCall, exit, result.0, result.1)
  }

  function Stages(c: Cluster, k: Key, s: AccountStatus, x: AccountOracle): Plan
    requires Coupled(c) && k in c.accounts
  {
    if !c.accounts[k].deleting then
      if AccountFinalizer in c.accounts[k].finalizers then Issue(c, k, s, x)
      else AddFinalizer(c, k, s, x)
    else if AccountFinalizer in c.accounts[k].finalizers then Finalize(c, k, s, x)
    else Stop(c, k, s, AlreadyFinalized, (Done, None))
  }

  // The status after r.Update(ctx, acc).
  function AfterUpdate(c: Cluster, k: Key, s: AccountStatus, x: AccountOracle): AccountStatus
    requires k in c.accounts
  {
    if x.refreshes then c.accounts[k].status else s
  }

  function AddFinalizer(c: Cluster, k: Key, s: AccountStatus, x: AccountOracle): Plan
    requires k in c.accounts
  {
    if !x.updateOk then Stop(c, k, s, FinalizerNotAdded, (Done, Some(Plain(ApiCallFailed))))
    else
      Plan(AfterUpdate(c, k, s, x), c.accounts[k].labels, c.accounts[k].finalizers + {AccountFinalizer},
           c.secrets, [ObjectWritten(k)], NoCall, FinalizerAdded, Requeue, None)
  }

  // Everything up to the issuer's seed prepares the JWT; then it is stored, then pushed.
  function Issue(c: Cluster, k: Key, s: AccountStatus, x: AccountOracle): Plan
    requires Coupled(c) && k in c.accounts
  {
    match PrepareSeed(c, k, s, x)
    case Halt(plan) => plan
    case Go(s1, seed) => StoreJWT(c, k, s1, seed, x)
  }

  /******* Preparing the JWT *******/

  datatype Prepared = Halt(plan: Plan) | Go(status: AccountStatus, seed: Seed)

  function AccountSeedStage(c: Cluster, k: Key, x: AccountOracle): SeedOut
    requires k in c.accounts
  {
    SeedStage(c.secrets, OwnerOf(k, c.accounts[k]), c.accounts[k].spec.seedSecretName, PrefixAccount, true, x.seed)
  }

  function PrepareSeed(c: Cluster, k: Key, s: AccountStatus, x: AccountOracle): Prepared
    requires Coupled(c) && k in c.accounts
  {
    match AccountSeedStage(c, k, x)
    case SeedFailed(e) => Halt(Stop(c, k, MarkSeed(s, Verdict(e)), SeedFailure, AsResult(e)))
    case SeedReady(store, kp, _, wrote) =>
      if wrote then
        Halt(Plan(s.MarkSeedSecretReady(kp), c.accounts[k].labels, c.accounts[k].finalizers,
                  store, [SecretWritten(Key(k.ns, c.accounts[k].spec.seedSecretName))], NoCall, SeedWritten, Requeue, None))
      else PrepareIssuer(c, k, s.MarkSeedSecretReady(kp), x)
  }

  function MarkSeed(s: AccountStatus, m: MarkCall): (r: AccountStatus)
    ensures r == s.(seed := MarkedAs(m), keyPair := None)
    ensures s.Coupled() ==> r.Coupled()
    ensures !r.Ready()
  {
    if m.failure then s.MarkSeedSecretFailed(m.reason, m.message) else s.MarkSeedSecretUnknown(m.reason, m.message)
  }

  function MarkIssuer(s: AccountStatus, m: MarkCall): (r: AccountStatus)
    ensures r == s.(issuer := MarkedAs(m))
    ensures s.Coupled() ==> r.Coupled()
    ensures !r.Ready()
  {
    if m.failure then s.MarkIssuerResolveFailed(m.reason, m.message) else s.MarkIssuerResolveUnknown(m.reason, m.message)
  }

  function MarkOperator(s: AccountStatus, m: MarkCall): (r: AccountStatus)
    ensures r == s.(operator := MarkedAs(m), operatorRef := None)
    ensures s.Coupled() ==> r.Coupled()
    ensures !r.Ready()
    ensures r.operatorRef == None && r.jwt == s.jwt && r.pushed == s.pushed
  {
    if m.failure then s.MarkOperatorResolveFailed(m.reason, m.message) else s.MarkOperatorResolveUnknown(m.reason, m.message)
  }

  function MarkJWT(s: AccountStatus, m: MarkCall): (r: AccountStatus)
    ensures r == s.(jwt := MarkedAs(m))
    ensures s.Coupled() ==> r.Coupled()
    ensures !r.Ready()
  {
    if m.failure then s.MarkJWTSecretFailed(m.reason, m.message) else s.MarkJWTSecretUnknown(m.reason, m.message)
  }

  function PrepareIssuer(c: Cluster, k: Key, s: AccountStatus, x: AccountOracle): Prepared
    requires Coupled(c) && k in c.accounts
  {
    match ResolveIssuer(c, c.accounts[k].spec.issuer, k.ns, x.issuerOk)
    case Fail(e) => Halt(Stop(c, k, MarkIssuer(s, Verdict(e)), IssuerFailure, AsResult(e)))
    case Ok(issuer) => PrepareOperator(c, k, s, issuer, x)
  }

  // resolveOperator; its two direct marks are those of the errors below.
  function ResolveOperator(c: Cluster, issuer: KeyPairable, callOk: bool): Res<(Key, Operator)>
    requires issuer.IssuerSigningKey? ==> issuer.signingKey.status.Coupled()
  {
    match issuer
    case IssuerOperator(key, op) => Ok((key, op))
    case IssuerSigningKey(_, sk) =>
      (match ResolveSigningKeyOwner(c, sk, callOk)
       case Fail(e) => Fail(e)
       case Ok(OwnedByOperator(key, op)) => Ok((key, op))
       case Ok(_) => Fail(TerminalError(ConditionFailed(InvalidSigningKeyOwner, Plain(WrongKind)))))
    case IssuerAccount(_, _) => Fail(TerminalError(ConditionFailed(UnsupportedIssuer, Plain(WrongKind))))
  }

  // resolveOperator followed by validateOperatorSelector
  function FindOperator(c: Cluster, k: Key, issuer: KeyPairable, ownerOk: bool, namespaceOk: bool): Res<Key>
    requires k in c.accounts
    requires issuer.IssuerSigningKey? ==> issuer.signingKey.status.Coupled()
  {
    match ResolveOperator(c, issuer, ownerOk)
    case Fail(e) => Fail(e)
    case Ok((key, op)) =>
      match ValidateSelectors(c, key.ns, op.spec.accountsNamespaceSelector, op.spec.accountsSelector,
                              k.ns, c.accounts[k].labels, namespaceOk)
      case Fail(e) => Fail(e)
      case Ok(_) => Ok(key)
  }

  function PrepareOperator(c: Cluster, k: Key, s: AccountStatus, issuer: KeyPairable, x: AccountOracle): Prepared
    requires Coupled(c) && k in c.accounts
    requires issuer.IssuerSigningKey? ==> issuer.signingKey.status.Coupled()
  {
    match FindOperator(c, k, issuer, x.ownerOk, x.namespaceOk)
    case Fail(e) => Halt(Stop(c, k, MarkOperator(s, Verdict(e)), OperatorFailure, AsResult(e)))
    case Ok(key) => PrepareLabels(c, k, s.MarkOperatorResolved(key), issuer, key.name, x)
  }

  function LabelOf(labels: Labels): string {
    if LabelOperatorName in labels then labels[LabelOperatorName] else ""
  }

  // reconcileLabels
  function PrepareLabels(c: Cluster, k: Key, s: AccountStatus, issuer: KeyPairable, name: string, x: AccountOracle): Prepared
    requires k in c.accounts
  {
    if LabelOf(c.accounts[k].labels) == name then PrepareKeys(c, k, s, issuer, x)
    else if !x.updateOk then Halt(Stop(c, k, s, LabelNotWritten, (Done, Some(Plain(ApiCallFailed)))))
    else
      Halt(Plan(AfterUpdate(c, k, s, x), c.accounts[k].labels[LabelOperatorName := name], c.accounts[k].finalizers,
                c.secrets, [ObjectWritten(k)], NoCall, LabelWritten, Requeue, None))
  }

  // The SigningKeys that ensureSigningKeysUpdated lists.
  function Candidates(c: Cluster, k: Key): seq<ListedKey>
    requires k in c.accounts
  {
    AsListed(ListKeys(c.signingKeys, k.ns, c.accounts[k].spec.signingKeysSelector))
  }

  // ensureSigningKeysUpdated; the oracle's list is the outcome of NextSigningKeys
  function PrepareKeys(c: Cluster, k: Key, s: AccountStatus, issuer: KeyPairable, x: AccountOracle): Prepared
    requires k in c.accounts
  {
    if c.accounts[k].spec.signingKeysSelector == Some(Unparsable) || !x.listOk then
      Halt(Stop(c, k, s, KeysFailure, (Done, Some(Wrap(Plain(ApiCallFailed))))))
    else PrepareIssuerSeed(c, k, s.MarkSigningKeysUpdated(x.keys), issuer, x)
  }

  function PrepareIssuerSeed(c: Cluster, k: Key, s: AccountStatus, issuer: KeyPairable, x: AccountOracle): Prepared
    requires k in c.accounts
  {
    match LoadAccountIssuerSeed(c, issuer, x.issuerSeedOk)
    case Fail(e) => Halt(Stop(c, k, MarkIssuer(s, Verdict(e)), IssuerSeedFailure, AsResult(e)))
    case Ok(seed) => Go(s.MarkIssuerResolved(), seed)
  }

  /******* Storing and pushing the JWT *******/

  // CreateAccountClaims before encoding
  function AccountClaimsOf(name: string, spec: AccountSpec, s: AccountStatus): Claims {
    var subject := if s.keyPair.Some? then s.keyPair.value.publicKey else "";
    AccountClaims(ClaimsData("", 0, "", subject, name), PublicKeysOf(s.signingKeys), spec.config)
  }

  function PublicKeysOf(keys: seq<SigningKeyEntry>): set<string> {
    set e | e in keys :: e.keyPair.publicKey
  }

  function WantedClaims(c: Cluster, k: Key, s: AccountStatus, seed: Seed, x: AccountOracle): Claims
    requires k in c.accounts
  {
    Stamped(AccountClaimsOf(k.name, c.accounts[k].spec, s), seed, x.iat, x.jti)
  }

  function AccountJwtStage(c: Cluster, k: Key, want: Claims, x: AccountOracle): JwtOut
    requires k in c.accounts
  {
    JwtStage(c.secrets, OwnerOf(k, c.accounts[k]), c.accounts[k].spec.jwtSecretName, want, Signed(want), x.jwt)
  }

  // reconcileJWTSecret
  function StoreJWT(c: Cluster, k: Key, s: AccountStatus, seed: Seed, x: AccountOracle): Plan
    requires k in c.accounts
  {
    if !x.encodeOk then
      var e := TerminalError(ConditionFailed(UnknownError, Wrap(Plain(EncodeFailed))));
      Stop(c, k, MarkJWT(s, Verdict(e)), JWTFailure, AsResult(e))
    else
      var out := AccountJwtStage(c, k, WantedClaims(c, k, s, seed, x), x);
      match out.result
      case Fail(e) => Stop(c, k, MarkJWT(s, Verdict(e)), JWTFailure, AsResult(e)).(store := out.store, writes := out.writes)
      case Ok(jwt) =>
        if out.writes == [] then Push(c, k, s.MarkJWTSecretReady(), jwt, x)
        else Stop(c, k, s.MarkJWTSecretReady(), JWTWritten, (Requeue, None)).(store := out.store, writes := out.writes)
  }

  // ensureJWTPushed. A push that reports an error may have reached the server all the same.
  function Push(c: Cluster, k: Key, s: AccountStatus, jwt: Jwt, x: AccountOracle): Plan
    requires k in c.accounts
  {
    match x.push
    case PushSucceeds => Stop(c, k, s.MarkJWTPushed(), Pushed, (Done, None)).(nats := PushSent(jwt))
    case PushFails =>
      Stop(c, k, s.MarkJWTPushFailed(JWTPushError, Reports(NatsFailed)), PushFailure, (Done, Some(Plain(NatsFailed))))
      .(nats := PushSent(jwt))
    case _ => Stop(c, k, s.MarkJWTPushFailed(UnknownError, Reports(NatsFailed)), PushFailure, (Done, Some(Plain(NatsFailed))))
  }

  /******* finalizeAccount *******/

  // Dereferencing a nil pointer is a panic.
  datatype Finalization = Skipped | FinalizeError(status: AccountStatus) | Removed(subject: string) | NilPointer

  function FinalizeAccount(c: Cluster, s: AccountStatus, x: AccountOracle): Finalization {
    if !IsTrue(s.jwt) || !IsTrue(s.pushed) then Skipped
    else if s.operatorRef.None? then NilPointer
    else
      var key := s.operatorRef.value;
      if !x.operatorOk then FinalizeError(s)
      else if key !in c.operators then Skipped
      else if c.operators[key].status.keyPair.None? then FinalizeError(s)
      else
        var seedKey := Key(key.ns, c.operators[key].status.keyPair.value.seedSecretName);
        if !x.operatorSeedOk || seedKey !in c.secrets || SeedKey !in c.secrets[seedKey].data
           || !c.secrets[seedKey].data[SeedKey].SeedBlob?
        then FinalizeError(s)
        else
          match x.revoke
          case SystemMissing => Skipped
          case SystemFails => FinalizeError(s)
          case RevokeOptionsFail => FinalizeError(s.MarkJWTPushFailed(UnknownError, Reports(NatsFailed)))
          case RevokeConnectFails => FinalizeError(s)
          case RevokeFails => if s.keyPair.None? then NilPointer else FinalizeError(s)
          case RevokeSucceeds => if s.keyPair.None? then NilPointer else Removed(s.keyPair.value.publicKey)
  }

  function Finalize(c: Cluster, k: Key, s: AccountStatus, x: AccountOracle): Plan
    requires k in c.accounts
  {
    match FinalizeAccount(c, s, x)
    case NilPointer => Stop(c, k, s, Panicked, (Done, Some(Plain(NilDereference))))
    case FinalizeError(status) => Stop(c, k, status, FinalizeFailed, (Done, Some(Plain(NatsFailed))))
    case Skipped => RemoveFinalizer(c, k, s, NoCall, x)
    case Removed(subject) => RemoveFinalizer(c, k, s, Revoked(subject), x)
  }

  function RemoveFinalizer(c: Cluster, k: Key, s: AccountStatus, nats: NatsCall, x: AccountOracle): Plan
    requires k in c.accounts
  {
    if !x.updateOk then Stop(c, k, s, FinalizerNotRemoved, (Done, Some(Plain(ApiCallFailed)))).(nats := nats)
    else
      Plan(AfterUpdate(c, k, s, x), c.accounts[k].labels, c.accounts[k].finalizers - {AccountFinalizer},
           c.secrets, [ObjectWritten(k)], nats, Finalized, Requeue, None)
  }
}
