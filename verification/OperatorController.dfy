/**
 OperatorReconciler.Reconcile of internal/controller/accounts/operator_controller.go, as one atomic step.
 */
module OperatorController {
  import opened Texts
  import opened Lifecycles
  import opened Errors
  import opened Secrets
  import opened ClusterState
  import opened SecretStages

  datatype ListOutcome = Listed | ListMissing | ListFails | ListNil

  datatype OperatorOracle = OperatorOracle(
    fetchOk: bool, seed: SeedOracle, accountOk: bool, list: ListOutcome,
    encodeOk: bool, iat: int, jti: string, jwt: JwtOracle, status: StatusOutcome)

  datatype OperatorExit =
    | NotFetched | NoOperator
    | SeedStopped | SeedCreated | SystemAccountStopped | KeysStopped | JWTStopped | Completed

  datatype OperatorPlan = OperatorPlan(
    status: OperatorStatus, store: Store, writes: seq<Write>, exit: OperatorExit, result: CtrlResult, error: Option<Err>)

  datatype OperatorStep = OperatorStep(
    c: Cluster, status: OperatorStatus, writes: seq<Write>, exit: OperatorExit, result: CtrlResult, error: Option<Err>)

  function OperatorOwner(k: Key, op: Operator): Owner { Owner(KindOperator, k, op.uid) }

  function ReconcileOperator(c: Cluster, k: Key, x: OperatorOracle): OperatorStep
    requires Coupled(c)
  {
    if !x.fetchOk then OperatorStep(c, NewOperatorStatus, [], NotFetched, Done, Some(Plain(ApiCallFailed)))
    else if k !in c.operators then OperatorStep(c, NewOperatorStatus, [], NoOperator, Done, None)
    else CloseOperator(c, k, OperatorStages(c, k, c.operators[k].status.InitializeConditions(), x), x)
  }

  // The deferred status write.
  function CloseOperator(c: Cluster, k: Key, p: OperatorPlan, x: OperatorOracle): OperatorStep
    requires k in c.operators
  {
    var op := c.operators[k];
    var same := p.status == op.status;
    var stored := !same && x.status == StatusStored;
    OperatorStep(
      c.(operators := c.operators[k := op.(status := if stored then p.status else op.status)], secrets := p.store),
      p.status,
      if stored then p.writes + [StatusWritten(k)] else p.writes,
      p.exit,
      if !same && x.status == StatusConflict && p.error.None? then Requeue else p.result,
      if !same && x.status == StatusFails && p.error.None? then Some(Plain(ApiCallFailed)) else p.error)
  }

  function StopOperator(c: Cluster, s: OperatorStatus, exit: OperatorExit, result: (CtrlResult, Option<Err>)): OperatorPlan {
    OperatorPlan(s, c.secrets, [], exit, result.0, result.1)
  }

  function MarkOperatorSeed(s: OperatorStatus, m: MarkCall): (r: OperatorStatus)
    ensures r == s.(seed := MarkedAs(m), keyPair := None)
    ensures s.Coupled() ==> r.Coupled()
    ensures !r.Ready()
  {
    if m.failure then s.MarkSeedSecretFailed(m.reason, m.message) else s.MarkSeedSecretUnknown(m.reason, m.message)
  }

  function MarkSystemAccount(s: OperatorStatus, m: MarkCall): (r: OperatorStatus)
    ensures r == s.(system := MarkedAs(m), systemAccount := None)
    ensures s.Coupled() ==> r.Coupled()
    ensures !r.Ready()
  {
    if m.failure then s.MarkSystemAccountResolveFailed(m.reason, m.message) else s.MarkSystemAccountResolveUnknown(m.reason, m.message)
  }

  function MarkOperatorJWT(s: OperatorStatus, m: MarkCall): (r: OperatorStatus)
    ensures r == s.(jwt := MarkedAs(m))
    ensures s.Coupled() ==> r.Coupled()
    ensures !r.Ready()
  {
    if m.failure then s.MarkJWTSecretFailed(m.reason, m.message) else s.MarkJWTSecretUnknown(m.reason, m.message)
  }

  function OperatorSeedStage(c: Cluster, k: Key, x: OperatorOracle): SeedOut
    requires k in c.operators
  {
    SeedStage(c.secrets, OperatorOwner(k, c.operators[k]), c.operators[k].spec.seedSecretName, PrefixOperator, true, x.seed)
  }

  function OperatorStages(c: Cluster, k: Key, s: OperatorStatus, x: OperatorOracle): OperatorPlan
    requires Coupled(c) && k in c.operators
  {
    match OperatorSeedStage(c, k, x)
    case SeedFailed(e) => StopOperator(c, MarkOperatorSeed(s, Verdict(e)), SeedStopped, AsResult(e))
    case SeedReady(store, kp, seed, wrote) =>
      if wrote then
        OperatorPlan(s.MarkSeedSecretReady(kp), store,
                     [SecretWritten(Key(k.ns, c.operators[k].spec.seedSecretName))], SeedCreated, Requeue, None)
      else SystemAccountStage(c, k, s.MarkSeedSecretReady(kp), seed, x)
  }

  // ensureSystemAccountResolved: the Account need not be ready, only its seed.
  function FindSystemAccount(c: Cluster, k: Key, callOk: bool): Res<KeyPairRef>
    requires Coupled(c) && k in c.operators
  {
    var key := Key(k.ns, c.operators[k].spec.systemAccount);
    if !callOk then Fail(ConditionFailed(NotFound, Wrap(Plain(ApiCallFailed))))
    else if key !in c.accounts then Fail(ConditionFailed(NotFound, Wrap(Plain(ObjectMissing))))
    else if !IsTrue(c.accounts[key].status.seed) then Fail(ConditionFailed(NotReady, Plain(ObjectNotReady)))
    else Ok(KeyPairRef(key, c.accounts[key].status.keyPair.value.publicKey))
  }

  function SystemAccountStage(c: Cluster, k: Key, s: OperatorStatus, seed: Seed, x: OperatorOracle): OperatorPlan
    requires Coupled(c) && k in c.operators
  {
    match FindSystemAccount(c, k, x.accountOk)
    case Fail(e) => StopOperator(c, MarkSystemAccount(s, Verdict(e)), SystemAccountStopped, AsResult(e))
    case Ok(ref) => OperatorKeysStage(c, k, s.MarkSystemAccountResolved(ref), seed, x)
  }

  // ensureSigningKeysUpdated: the filter goes by the owner's namespace and name.
  predicate OwnKey(k: Key, sk: SigningKey)
    requires sk.status.Coupled()
  {
    sk.status.Ready() && sk.status.ownerRef.value.ns == k.ns && sk.status.ownerRef.value.name == k.name
  }

  function OperatorKeys(k: Key, sks: seq<SigningKey>): seq<SigningKeyEntry>
    requires forall sk :: sk in sks ==> sk.status.Coupled()
  {
    if sks == [] then []
    else
      var rest, sk := OperatorKeys(k, sks[..|sks| - 1]), sks[|sks| - 1];
      if OwnKey(k, sk) then rest + [SigningKeyEntry(sk.key.name, sk.status.keyPair.value)] else rest
  }

  function ListedKeys(c: Cluster, k: Key): (r: seq<SigningKeyEntry>)
    requires Coupled(c)
  {
    OperatorKeys(k, ListKeys(c.signingKeys, k.ns, None))
  }

  function OperatorKeysStage(c: Cluster, k: Key, s: OperatorStatus, seed: Seed, x: OperatorOracle): OperatorPlan
    requires Coupled(c) && k in c.operators
  {
    match x.list
    case ListMissing => StopOperator(c, s, KeysStopped, (Requeue, None))
    case ListFails => StopOperator(c, s, KeysStopped, (Done, Some(Plain(ApiCallFailed))))
    case ListNil => OperatorJWTStage(c, k, s, seed, x)
    case Listed => OperatorJWTStage(c, k, s.MarkSigningKeysUpdated(ListedKeys(c, k)), seed, x)
  }

  function PublicKeyList(keys: seq<SigningKeyEntry>): (r: seq<string>)
    ensures |r| == |keys| && forall i :: 0 <= i < |r| ==> r[i] == keys[i].keyPair.publicKey
  {
    seq(|keys|, i requires 0 <= i < |keys| => keys[i].keyPair.publicKey)
  }

  // CreateOperatorClaims, stamped by the encoder; it refuses a status without system account or key pair.
  function OperatorClaimsOf(name: string, spec: OperatorSpec, s: OperatorStatus, seed: Seed, iat: int, jti: string): Option<Claims> {
    if s.systemAccount.None? || s.keyPair.None? then None
    else
      Some(Stamped(
        OperatorClaims(ClaimsData("", 0, "", s.keyPair.value.publicKey, name),
                       PublicKeyList(s.signingKeys), s.systemAccount.value.publicKey, spec.config),
        seed, iat, jti))
  }

  function OperatorJWTStage(c: Cluster, k: Key, s: OperatorStatus, seed: Seed, x: OperatorOracle): OperatorPlan
    requires k in c.operators
  {
    var want := OperatorClaimsOf(k.name, c.operators[k].spec, s, seed, x.iat, x.jti);
    if want.None? || !x.encodeOk then
      var e := TerminalError(ConditionFailed(UnknownError, Wrap(Plain(EncodeFailed))));
      StopOperator(c, MarkOperatorJWT(s, Verdict(e)), JWTStopped, AsResult(e))
    else
      var out := JwtStage(c.secrets, OperatorOwner(k, c.operators[k]), c.operators[k].spec.jwtSecretName,
                          want.value, Signed(want.value), x.jwt);
      match out.result
      case Fail(e) => OperatorPlan(MarkOperatorJWT(s, Verdict(e)), out.store, out.writes, JWTStopped, AsResult(e).0, AsResult(e).1)
      case Ok(_) =>
        OperatorPlan(s.MarkJWTSecretReady(), out.store, out.writes, Completed,
                     if out.writes == [] then Done else Requeue, None)
  }
}
